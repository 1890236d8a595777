/**
 * The helpers of the stream splitter (ariblib/command/split.py): the bit
 * generator, the bit-serial MPEG-2 CRC-32 of ISO/IEC 13818-1 Annex A
 * (polynomial 0x04C11DB7, register preset to all ones, no final inversion)
 * and the rewrite of the PAT that keeps only its first program.
 *
 * The CRC register is a `bv32`: the source's `crc &= 0xFFFFFFFF` after the
 * one-bit left shift is exactly the wrap-around of a 32-bit register.
 */
module Split {
  import opened Wrappers
  import opened Bits
  import opened Slices
  import opened Packet

  // ---------------------------------------------------------------------
  // bits(data)

  /** The eight bits of a byte, most significant first. */
  function ByteBitSeq(x: uint8): (r: seq<nat>)
    ensures |r| == 8 && forall j :: 0 <= j < 8 ==> r[j] == ByteBit(x, j)
  {
    [ByteBit(x, 0), ByteBit(x, 1), ByteBit(x, 2), ByteBit(x, 3),
     ByteBit(x, 4), ByteBit(x, 5), ByteBit(x, 6), ByteBit(x, 7)]
  }

  /** `bits(data)`: for each byte, `(x >> mask) & 1` for `mask` from 7 down to 0. */
  function DataBits(data: seq<uint8>): seq<nat>
  {
    if data == [] then [] else ByteBitSeq(data[0]) + DataBits(data[1..])
  }

  /** Each generated bit is the source's `(x >> mask) & 0x01`. */
  lemma ByteBitIsShiftAndMask(x: uint8, j: nat)
    requires j < 8
    ensures ByteBit(x, j) == BitAnd(ShiftRight(x, 7 - j), 0x01)
    ensures ByteBit(x, j) < 2
  {
    ByteBitShift(x, j, 7 - j);
    MaskLow(ShiftRight(x, 7 - j), 1);
    assert Pow2(1) == 2;
  }

  /** The generator yields `8 * len(data)` bits, bit `k` being bit `k % 8` of byte `k / 8`. */
  lemma {:induction false} DataBitsIndex(data: seq<uint8>)
    ensures |DataBits(data)| == 8 * |data|
    ensures forall k :: 0 <= k < 8 * |data| ==> DataBits(data)[k] == Bit(data, k)
    decreases |data|
  {
    if data != [] {
      var head, tail := ByteBitSeq(data[0]), data[1..];
      DataBitsIndex(tail);
      forall k | 0 <= k < 8 * |data|
        ensures DataBits(data)[k] == Bit(data, k)
      {
        if k >= 8 {
          assert DataBits(data)[k] == DataBits(tail)[k - 8];
          assert (k - 8) / 8 == k / 8 - 1 && (k - 8) % 8 == k % 8;
        }
      }
    }
  }

  /** The bits of two byte strings back to back are their bits back to back. */
  lemma {:induction false} DataBitsAppend(a: seq<uint8>, b: seq<uint8>)
    ensures DataBits(a + b) == DataBits(a) + DataBits(b)
    decreases |a|
  {
    if a == [] {
      assert a + b == b;
    } else {
      var h := ByteBitSeq(a[0]);
      assert (a + b)[0] == a[0] && (a + b)[1..] == a[1..] + b;
      assert DataBits(a + b) == h + DataBits(a[1..] + b);
      DataBitsAppend(a[1..], b);
      Regroup3(h, DataBits(a[1..]), DataBits(b));
    }
  }

  // ---------------------------------------------------------------------
  // crc32(data)

  const Polynomial: bv32 := 0x04C1_1DB7
  const Preset: bv32 := 0xFFFF_FFFF

  /**
   * One iteration of the loop: the old top bit `c`, the shift, and the XOR
   * with the polynomial when `c ^ bit` is set. Bits are 0 or 1, so `c ^ bit`
   * is set exactly when they differ.
   */
  function CrcStep(crc: bv32, bit: nat): bv32
  {
    var c: nat := if crc & 0x8000_0000 != 0 then 1 else 0;
    var shifted := crc << 1;
    if c != bit then shifted ^ Polynomial else shifted
  }

  /** The register after the bits are shifted through it one by one. */
  function CrcBits(crc: bv32, bits: seq<nat>): bv32
    decreases |bits|
  {
    if bits == [] then crc else CrcBits(CrcStep(crc, bits[0]), bits[1..])
  }

  /** Shifting the `k`-th bit of a run through the register, then the rest of the run. */
  lemma CrcBitsCons(crc: bv32, bits: seq<nat>, k: nat, next: bv32)
    requires k < |bits| && next == CrcStep(crc, bits[k])
    ensures CrcBits(crc, bits[k..]) == CrcBits(next, bits[k + 1..])
  {
    assert bits[k..][0] == bits[k] && bits[k..][1..] == bits[k + 1..];
  }

  /** `crc32(data)`: the preset register run over `bits(data)`, returned as is. */
  function Crc32Spec(data: seq<uint8>): bv32
  {
    CrcBits(Preset, DataBits(data))
  }

  /** Shifting two runs of bits through the register is shifting the first, then the second. */
  lemma {:induction false} CrcBitsAppend(crc: bv32, a: seq<nat>, b: seq<nat>)
    ensures CrcBits(crc, a + b) == CrcBits(CrcBits(crc, a), b)
    decreases |a|
  {
    if a == [] {
      assert a + b == b;
    } else {
      assert (a + b)[0] == a[0] && (a + b)[1..] == a[1..] + b;
      CrcBitsAppend(CrcStep(crc, a[0]), a[1..], b);
    }
  }

  /** The CRC of a concatenation continues from the CRC of its first part. */
  lemma Crc32Append(a: seq<uint8>, b: seq<uint8>)
    ensures Crc32Spec(a + b) == CrcBits(Crc32Spec(a), DataBits(b))
  {
    DataBitsAppend(a, b);
    CrcBitsAppend(Preset, DataBits(a), DataBits(b));
  }

  /** `crc32(b'')` is the preset value: there is no final inversion. */
  lemma Crc32Empty()
    ensures Crc32Spec([]) == 0xFFFF_FFFF
  {
    assert DataBits([]) == [];
  }

  /** The `crc32` loop over the bits of each byte, most significant first. */
  method Crc32(data: seq<uint8>) returns (crc: bv32)
    ensures crc == Crc32Spec(data)
  {
    crc := Preset;
    var i := 0;
    while i < |data|
      invariant 0 <= i <= |data|
      invariant Crc32Spec(data) == CrcBits(crc, DataBits(data[i..]))
    {
      CrcBitsNextByte(crc, data, i);
      crc := ShiftByte(crc, data[i]);
      i := i + 1;
    }
  }

  lemma CrcBitsNextByte(crc: bv32, data: seq<uint8>, i: nat)
    requires i < |data|
    ensures CrcBits(crc, DataBits(data[i..])) == CrcBits(CrcBits(crc, ByteBitSeq(data[i])), DataBits(data[i + 1..]))
  {
    assert data[i..] == [data[i]] + data[i + 1..];
    assert DataBits(data[i..]) == ByteBitSeq(data[i]) + DataBits(data[i + 1..]);
    CrcBitsAppend(crc, ByteBitSeq(data[i]), DataBits(data[i + 1..]));
  }

  /** The register after bits `k` to 7 of `x` are shifted through it. */
  function ByteRest(crc: bv32, x: uint8, k: nat): bv32
    requires k <= 8
    decreases 8 - k
  {
    if k == 8 then crc else ByteRest(CrcStep(crc, ByteBit(x, k)), x, k + 1)
  }

  lemma {:induction false} ByteRestIsCrcBits(crc: bv32, x: uint8, k: nat)
    requires k <= 8
    ensures ByteRest(crc, x, k) == CrcBits(crc, ByteBitSeq(x)[k..])
    decreases 8 - k
  {
    var bits := ByteBitSeq(x);
    if k == 8 {
      assert bits[8..] == [];
    } else {
      CrcBitsCons(crc, bits, k, CrcStep(crc, ByteBit(x, k)));
      ByteRestIsCrcBits(CrcStep(crc, ByteBit(x, k)), x, k + 1);
    }
  }

  /** The inner part of the loop: the eight bits of one byte, `mask` from 7 down to 0. */
  method ShiftByte(crc0: bv32, x: uint8) returns (crc: bv32)
    ensures crc == CrcBits(crc0, ByteBitSeq(x))
  {
    ghost var target := ByteRest(crc0, x, 0);
    crc := crc0;
    var mask := 7;
    while mask >= 0
      invariant -1 <= mask <= 7
      invariant ByteRest(crc, x, 7 - mask) == target
      decreases mask + 1
    {
      var bit := ByteBit(x, 7 - mask);
      var c: nat := if crc & 0x8000_0000 != 0 then 1 else 0;
      crc := crc << 1;
      if c != bit {
        crc := crc ^ Polynomial;
      }
      mask := mask - 1;
    }
    ByteRestIsCrcBits(crc0, x, 0);
    assert ByteBitSeq(x)[0..] == ByteBitSeq(x);
  }

  // ---------------------------------------------------------------------
  // The Annex A check: a section followed by its CRC leaves the register at zero

  /** `struct.pack('>L', crc)`: the register as four bytes, most significant first. */
  function Be32(r: bv32): (b: seq<uint8>)
    ensures |b| == 4
  {
    [(r >> 24) as int, ((r >> 16) & 0xFF) as int, ((r >> 8) & 0xFF) as int, (r & 0xFF) as int]
  }

  /** The register's top bit. */
  function Top(r: bv32): nat
  {
    if r & 0x8000_0000 != 0 then 1 else 0
  }

  /** The register shifted left `n` times, one bit at a time. */
  function Shifted(r: bv32, n: nat): bv32
    decreases n
  {
    if n == 0 then r else Shifted(r << 1, n - 1)
  }

  /** The register's top bits as it is shifted left `n` times. */
  function OwnTops(r: bv32, n: nat): (bits: seq<nat>)
    ensures |bits| == n
    decreases n
  {
    if n == 0 then [] else [Top(r)] + OwnTops(r << 1, n - 1)
  }

  /** Feeding the register its own top bit only shifts it. */
  lemma StepOwnTop(r: bv32)
    ensures CrcStep(r, Top(r)) == r << 1
  {
  }

  /** Feeding the register its own top bits shifts them out without the polynomial. */
  lemma {:induction false} OwnTopsShiftOut(r: bv32, n: nat)
    ensures CrcBits(r, OwnTops(r, n)) == Shifted(r, n)
    decreases n
  {
    if n > 0 {
      var bits := OwnTops(r, n);
      StepOwnTop(r);
      CrcBitsCons(r, bits, 0, r << 1);
      assert bits[0..] == bits && bits[1..] == OwnTops(r << 1, n - 1);
      OwnTopsShiftOut(r << 1, n - 1);
    }
  }

  lemma {:induction false} ShiftedSucc(r: bv32, n: nat)
    ensures Shifted(r, n + 1) == Shifted(r, n) << 1
    decreases n
  {
    if n > 0 {
      ShiftedSucc(r << 1, n - 1);
    }
  }


  /** `k` single shifts are one shift by `k` bits. */
  lemma {:induction false} ShiftedBy(r: bv32, k: bv32)
    requires k <= 32
    ensures Shifted(r, k as nat) == r << k
    decreases k
  {
    if k > 0 {
      ShiftedBy(r, k - 1);
      ShiftedSucc(r, (k - 1) as nat);
      ShiftOnce(r, k - 1);
    }
  }

  lemma ShiftOnce(r: bv32, k: bv32)
    requires k < 32
    ensures (r << k) << 1 == r << (k + 1)
  {
  }

  /** The `k`-th of the top bits is the top bit after `k` single shifts. */
  lemma {:induction false} OwnTopsIndex(r: bv32, n: nat, k: nat)
    requires k < n
    ensures OwnTops(r, n)[k] == Top(Shifted(r, k))
    decreases n
  {
    if k > 0 {
      OwnTopsIndex(r << 1, n - 1, k - 1);
    }
  }

  /** Bit `j` of the register's top byte is its top bit after `j` single shifts. */
  lemma TopBitAt(r: bv32, j: nat)
    requires j < 8
    ensures ByteBit((r >> 24) as int, j) == Top(Shifted(r, j))
  {
    var x: uint8 := (r >> 24) as int;
    ByteBitShift(x, j, 7 - j);
    ShiftRightValue(x, 7 - j);
    if j == 0 {
      assert Pow2(7) == 128;
      TopBitOfByte0(r);
    } else if j == 1 {
      assert Pow2(6) == 64;
      TopBitOfByte1(r);
    } else if j == 2 {
      assert Pow2(5) == 32;
      TopBitOfByte2(r);
    } else if j == 3 {
      assert Pow2(4) == 16;
      TopBitOfByte3(r);
    } else if j == 4 {
      assert Pow2(3) == 8;
      TopBitOfByte4(r);
    } else if j == 5 {
      assert Pow2(2) == 4;
      TopBitOfByte5(r);
    } else if j == 6 {
      assert Pow2(1) == 2;
      TopBitOfByte6(r);
    } else {
      assert Pow2(0) == 1;
      TopBitOfByte7(r);
    }
  }

  /** The bits of the register's top byte are its own top bits over eight shifts. */
  lemma TopByteBits(r: bv32)
    ensures ByteBitSeq((r >> 24) as int) == OwnTops(r, 8)
  {
    var bits := ByteBitSeq((r >> 24) as int);
    forall j | 0 <= j < 8
      ensures bits[j] == OwnTops(r, 8)[j]
    {
      TopBitAt(r, j);
      OwnTopsIndex(r, 8, j);
    }
  }

  /** Shifting the register's own top byte through it shifts it left by a byte. */
  lemma ByteShiftOut(r: bv32)
    ensures CrcBits(r, ByteBitSeq((r >> 24) as int)) == r << 8
  {
    TopByteBits(r);
    OwnTopsShiftOut(r, 8);
    ShiftedByte(r);
  }

  lemma ShiftedByte(r: bv32)
    ensures Shifted(r, 8) == r << 8
  {
    ShiftedBy(r, 8);
    assert (8 as bv32) as nat == 8;
  }

  lemma TopBitOfByte0(r: bv32)
    ensures ((r >> 24) as int / 128) % 2 == Top(Shifted(r, 0))
  {
  }

  lemma TopBitOfByte1(r: bv32)
    ensures ((r >> 24) as int / 64) % 2 == Top(Shifted(r, 1))
  {
    ShiftedBy(r, 1);
    assert (1 as bv32) as nat == 1;
    TopBitOfShift1(r);
  }

  lemma TopBitOfShift1(r: bv32)
    ensures ((r >> 24) as int / 64) % 2 == Top(r << 1)
  {
  }

  lemma TopBitOfByte2(r: bv32)
    ensures ((r >> 24) as int / 32) % 2 == Top(Shifted(r, 2))
  {
    ShiftedBy(r, 2);
    assert (2 as bv32) as nat == 2;
    TopBitOfShift2(r);
  }

  lemma TopBitOfShift2(r: bv32)
    ensures ((r >> 24) as int / 32) % 2 == Top(r << 2)
  {
  }

  lemma TopBitOfByte3(r: bv32)
    ensures ((r >> 24) as int / 16) % 2 == Top(Shifted(r, 3))
  {
    ShiftedBy(r, 3);
    assert (3 as bv32) as nat == 3;
    TopBitOfShift3(r);
  }

  lemma TopBitOfShift3(r: bv32)
    ensures ((r >> 24) as int / 16) % 2 == Top(r << 3)
  {
  }

  lemma TopBitOfByte4(r: bv32)
    ensures ((r >> 24) as int / 8) % 2 == Top(Shifted(r, 4))
  {
    ShiftedBy(r, 4);
    assert (4 as bv32) as nat == 4;
    TopBitOfShift4(r);
  }

  lemma TopBitOfShift4(r: bv32)
    ensures ((r >> 24) as int / 8) % 2 == Top(r << 4)
  {
  }

  lemma TopBitOfByte5(r: bv32)
    ensures ((r >> 24) as int / 4) % 2 == Top(Shifted(r, 5))
  {
    ShiftedBy(r, 5);
    assert (5 as bv32) as nat == 5;
    TopBitOfShift5(r);
  }

  lemma TopBitOfShift5(r: bv32)
    ensures ((r >> 24) as int / 4) % 2 == Top(r << 5)
  {
  }

  lemma TopBitOfByte6(r: bv32)
    ensures ((r >> 24) as int / 2) % 2 == Top(Shifted(r, 6))
  {
    ShiftedBy(r, 6);
    assert (6 as bv32) as nat == 6;
    TopBitOfShift6(r);
  }

  lemma TopBitOfShift6(r: bv32)
    ensures ((r >> 24) as int / 2) % 2 == Top(r << 6)
  {
  }

  lemma TopBitOfByte7(r: bv32)
    ensures ((r >> 24) as int / 1) % 2 == Top(Shifted(r, 7))
  {
    ShiftedBy(r, 7);
    assert (7 as bv32) as nat == 7;
    TopBitOfShift7(r);
  }

  lemma TopBitOfShift7(r: bv32)
    ensures ((r >> 24) as int / 1) % 2 == Top(r << 7)
  {
  }

  /** The top bytes of the register as it is shifted left a byte at a time, `n` times. */
  function TopBytes(r: bv32, n: nat): (b: seq<uint8>)
    ensures |b| == n
    decreases n
  {
    if n == 0 then [] else [(r >> 24) as int] + TopBytes(r << 8, n - 1)
  }

  /** The register shifted left a byte at a time, `n` times. */
  function ByteShifted(r: bv32, n: nat): bv32
    decreases n
  {
    if n == 0 then r else ByteShifted(r << 8, n - 1)
  }

  /** Feeding the register its own top bytes shifts them out. */
  lemma {:induction false} TopBytesShiftOut(r: bv32, n: nat)
    ensures CrcBits(r, DataBits(TopBytes(r, n))) == ByteShifted(r, n)
    decreases n
  {
    var b := TopBytes(r, n);
    if n == 0 {
      assert DataBits(b) == [];
    } else {
      assert b[0] == (r >> 24) as int && b[1..] == TopBytes(r << 8, n - 1);
      assert DataBits(b) == ByteBitSeq(b[0]) + DataBits(b[1..]);
      CrcBitsAppend(r, ByteBitSeq(b[0]), DataBits(b[1..]));
      ByteShiftOut(r);
      TopBytesShiftOut(r << 8, n - 1);
    }
  }

  /** The packed bytes are the top bytes of the register shifted by 0, 8, 16 and 24 bits. */
  lemma Be32TopBytes(r: bv32)
    ensures Be32(r) == TopBytes(r, 4)
  {
    var r1 := r << 8;
    var r2 := r1 << 8;
    var r3 := r2 << 8;
    var t, t1, t2, t3 := TopBytes(r, 4), TopBytes(r1, 3), TopBytes(r2, 2), TopBytes(r3, 1);
    TopBytesCons(r, 3);
    TopBytesCons(r1, 2);
    TopBytesCons(r2, 1);
    TopBytesCons(r3, 0);
    assert t[1] == t1[0] && t[2] == t1[1] == t2[0] && t[3] == t1[2] == t2[1] == t3[0];
    Be32Bytes(r);
  }

  lemma TopBytesCons(r: bv32, n: nat)
    ensures TopBytes(r, n + 1) == [(r >> 24) as int] + TopBytes(r << 8, n)
  {
  }

  lemma Be32Bytes(r: bv32)
    ensures Be32(r) == [(r >> 24) as int, ((r << 8) >> 24) as int, (((r << 8) << 8) >> 24) as int, ((((r << 8) << 8) << 8) >> 24) as int]
  {
  }

  /** Four byte shifts clear the register. */
  lemma ByteShiftedClears(r: bv32)
    ensures ByteShifted(r, 4) == 0
  {
    var r1 := r << 8;
    var r2 := r1 << 8;
    var r3 := r2 << 8;
    assert ByteShifted(r, 4) == ByteShifted(r1, 3);
    assert ByteShifted(r1, 3) == ByteShifted(r2, 2);
    assert ByteShifted(r2, 2) == ByteShifted(r3, 1);
    assert ByteShifted(r3, 1) == r3 << 8;
    ByteShiftsClear(r);
  }

  lemma ByteShiftsClear(r: bv32)
    ensures (((r << 8) << 8) << 8) << 8 == 0
  {
  }

  /**
   * Shifting the register's own packed value through it leaves zero: the
   * property a decoder checks, by ISO/IEC 13818-1 Annex A, when it runs the
   * CRC over a whole section including its CRC_32 field.
   */
  lemma CrcOfOwnValue(r: bv32)
    ensures CrcBits(r, DataBits(Be32(r))) == 0
  {
    Be32TopBytes(r);
    TopBytesShiftOut(r, 4);
    ByteShiftedClears(r);
  }

  /** A section followed by its own big-endian `crc32` has a CRC of zero. */
  lemma Crc32OfSectionWithCrc(data: seq<uint8>)
    ensures Crc32Spec(data + Be32(Crc32Spec(data))) == 0
  {
    Crc32Append(data, Be32(Crc32Spec(data)));
    CrcOfOwnValue(Crc32Spec(data));
  }

  // ---------------------------------------------------------------------
  // replace_pat(pat)

  /** The 163 bytes of `0xFF` stuffing after the new section. */
  function Stuffing(): (t: seq<uint8>)
    ensures |t| == 163 && forall k :: 0 <= k < 163 ==> t[k] == 0xFF
  {
    seq(163, _ => 0xFF)
  }

  /**
   * The rewritten PAT: the first 16 bytes of the old one with byte 2 (the low
   * byte of section_length) set to 0x11, their CRC, then stuffing. Writing
   * byte 2 of a shorter buffer raises IndexError.
   */
  function ReplacePatSpec(pat: seq<uint8>): Result<seq<uint8>, PacketError>
  {
    if |pat| < 3 then Err(IndexError(2))
    else
      var head := pat[..Min(16, |pat|)][2 := 0x11];
      Ok(head + Be32(Crc32Spec(head)) + Stuffing())
  }

  /** `replace_pat`, building the new buffer step by step as the bytearray is. */
  method ReplacePat(pat: seq<uint8>) returns (r: Result<seq<uint8>, PacketError>)
    ensures r == ReplacePatSpec(pat)
  {
    var newPat := pat[..Min(16, |pat|)];
    if |newPat| < 3 {
      return Err(IndexError(2));
    }
    newPat := newPat[2 := 0x11];
    var crc := Crc32(newPat);
    newPat := newPat + Be32(crc);
    newPat := newPat + Stuffing();
    r := Ok(newPat);
  }

  /**
   * What the new PAT is: a 16-byte section (for a full-size input) whose
   * bytes are those of the old one except section_length, followed by a
   * CRC_32 that makes the CRC over the section and its CRC field zero, and
   * 0xFF stuffing up to 183 bytes.
   */
  lemma ReplacePatShape(pat: seq<uint8>)
    ensures ReplacePatSpec(pat).Err? <==> |pat| < 3
    ensures |pat| >= 3 ==>
      var r := ReplacePatSpec(pat).value;
      var m := Min(16, |pat|);
      && |r| == m + 167
      && (|pat| >= 16 ==> |r| == 183)
      && r[2] == 0x11
      && (forall k :: 0 <= k < m && k != 2 ==> r[k] == pat[k])
      && r[m..m + 4] == Be32(Crc32Spec(r[..m]))
      && Crc32Spec(r[..m + 4]) == 0
      && (forall k :: m + 4 <= k < |r| ==> r[k] == 0xFF)
  {
    if |pat| >= 3 {
      var m := Min(16, |pat|);
      var head := pat[..m][2 := 0x11];
      var r := ReplacePatSpec(pat).value;
      assert r == head + Be32(Crc32Spec(head)) + Stuffing();
      assert r[..m] == head;
      assert r[m..m + 4] == Be32(Crc32Spec(head));
      assert r[..m + 4] == head + Be32(Crc32Spec(head));
      Crc32OfSectionWithCrc(head);
    }
  }

  // ---------------------------------------------------------------------
  // The PAT section of the library's test stream

  /** Byte `k` of the 28 bytes of the test PAT section that precede its CRC_32 field. */
  function TestPatByteAt(k: nat): uint8
    requires k < 28
  {
    match k
    case 0 => 0x00
    case 1 => 0xB0
    case 2 => 0x1D
    case 3 => 0x7E
    case 4 => 0x87
    case 5 => 0xD9
    case 6 => 0x00
    case 7 => 0x00
    case 8 => 0x00
    case 9 => 0x00
    case 10 => 0xE0
    case 11 => 0x10
    case 12 => 0x5C
    case 13 => 0x38
    case 14 => 0xE1
    case 15 => 0x01
    case 16 => 0x5C
    case 17 => 0x39
    case 18 => 0xE1
    case 19 => 0x02
    case 20 => 0x5D
    case 21 => 0xB8
    case 22 => 0xFF
    case 23 => 0xC8
    case 24 => 0x5D
    case 25 => 0xB9
    case 26 => 0xFF
    case _ => 0xC9
  }

  /** The test PAT section before its CRC_32 field. */
  function TestPatSection(): (t: seq<uint8>)
    ensures |t| == 28
  {
    seq(28, k requires 0 <= k < 28 => TestPatByteAt(k))
  }

  /** The register after the first `k` bytes of the test section. */
  function TestPatRegister(k: nat): bv32
    requires k <= 28
  {
    match k
    case 0 => 0xFFFF_FFFF
    case 1 => 0x4E08_BFB4
    case 2 => 0xBD89_E903
    case 3 => 0x78C6_550E
    case 4 => 0xDCD3_43B2
    case 5 => 0x809F_D266
    case 6 => 0xC58C_3D08
    case 7 => 0xC672_F3F2
    case 8 => 0x35FF_2F2B
    case 9 => 0x3CD8_2DFB
    case 10 => 0x3913_0DF4
    case 11 => 0x205F_4FE6
    case 12 => 0x8B7D_8B90
    case 13 => 0x7257_8BEC
    case 14 => 0x4C87_4AA1
    case 15 => 0x47A8_71DD
    case 16 => 0x8671_E0C5
    case 17 => 0x4FF1_583F
    case 18 => 0x0B6A_6F55
    case 19 => 0x804C_A5AF
    case 20 => 0x2C2B_7480
    case 21 => 0xCF01_8050
    case 22 => 0xFF73_1DE2
    case 23 => 0x731D_E200
    case 24 => 0x8B97_461F
    case 25 => 0x9C5B_195B
    case 26 => 0xD4FF_868B
    case 27 => 0x4CEE_F681
    case _ => 0x903F_0A85
  }

  /** Byte `k` of the test section takes the register from its `k`-th value to the next. */
  predicate TestPatStep(k: nat)
    requires k < 28
  {
    CrcBits(TestPatRegister(k), ByteBitSeq(TestPatByteAt(k))) == TestPatRegister(k + 1)
  }

  lemma TestPatByte(k: nat)
    requires k < 28
    ensures TestPatStep(k)
  {
    if k < 4 {
      TestPatBytes0To3(k);
    } else if k < 8 {
      TestPatBytes4To7(k);
    } else if k < 12 {
      TestPatBytes8To11(k);
    } else if k < 16 {
      TestPatBytes12To15(k);
    } else if k < 20 {
      TestPatBytes16To19(k);
    } else if k < 24 {
      TestPatBytes20To23(k);
    } else {
      TestPatBytes24To27(k);
    }
  }

  lemma TestPatBytes0To3(k: nat)
    requires 0 <= k < 4
    ensures TestPatStep(k)
  {
    if k == 0 {
      TestPatByte0();
    } else if k == 1 {
      TestPatByte1();
    } else if k == 2 {
      TestPatByte2();
    } else {
      TestPatByte3();
    }
  }

  lemma TestPatBytes4To7(k: nat)
    requires 4 <= k < 8
    ensures TestPatStep(k)
  {
    if k == 4 {
      TestPatByte4();
    } else if k == 5 {
      TestPatByte5();
    } else if k == 6 {
      TestPatByte6();
    } else {
      TestPatByte7();
    }
  }

  lemma TestPatBytes8To11(k: nat)
    requires 8 <= k < 12
    ensures TestPatStep(k)
  {
    if k == 8 {
      TestPatByte8();
    } else if k == 9 {
      TestPatByte9();
    } else if k == 10 {
      TestPatByte10();
    } else {
      TestPatByte11();
    }
  }

  lemma TestPatBytes12To15(k: nat)
    requires 12 <= k < 16
    ensures TestPatStep(k)
  {
    if k == 12 {
      TestPatByte12();
    } else if k == 13 {
      TestPatByte13();
    } else if k == 14 {
      TestPatByte14();
    } else {
      TestPatByte15();
    }
  }

  lemma TestPatBytes16To19(k: nat)
    requires 16 <= k < 20
    ensures TestPatStep(k)
  {
    if k == 16 {
      TestPatByte16();
    } else if k == 17 {
      TestPatByte17();
    } else if k == 18 {
      TestPatByte18();
    } else {
      TestPatByte19();
    }
  }

  lemma TestPatBytes20To23(k: nat)
    requires 20 <= k < 24
    ensures TestPatStep(k)
  {
    if k == 20 {
      TestPatByte20();
    } else if k == 21 {
      TestPatByte21();
    } else if k == 22 {
      TestPatByte22();
    } else {
      TestPatByte23();
    }
  }

  lemma TestPatBytes24To27(k: nat)
    requires 24 <= k < 28
    ensures TestPatStep(k)
  {
    if k == 24 {
      TestPatByte24();
    } else if k == 25 {
      TestPatByte25();
    } else if k == 26 {
      TestPatByte26();
    } else {
      TestPatByte27();
    }
  }

  /** The register after bytes 0 to 3 of the test section, computed bit by bit. */
  lemma TestPatRegisters0To3()
    ensures CrcBits(0xFFFF_FFFF, ByteBitSeq(0x00)) == 0x4E08_BFB4
    ensures CrcBits(0x4E08_BFB4, ByteBitSeq(0xB0)) == 0xBD89_E903
    ensures CrcBits(0xBD89_E903, ByteBitSeq(0x1D)) == 0x78C6_550E
    ensures CrcBits(0x78C6_550E, ByteBitSeq(0x7E)) == 0xDCD3_43B2
  {
  }

  /** The register after bytes 4 to 7 of the test section, computed bit by bit. */
  lemma TestPatRegisters4To7()
    ensures CrcBits(0xDCD3_43B2, ByteBitSeq(0x87)) == 0x809F_D266
    ensures CrcBits(0x809F_D266, ByteBitSeq(0xD9)) == 0xC58C_3D08
    ensures CrcBits(0xC58C_3D08, ByteBitSeq(0x00)) == 0xC672_F3F2
    ensures CrcBits(0xC672_F3F2, ByteBitSeq(0x00)) == 0x35FF_2F2B
  {
  }

  /** The register after bytes 8 to 11 of the test section, computed bit by bit. */
  lemma TestPatRegisters8To11()
    ensures CrcBits(0x35FF_2F2B, ByteBitSeq(0x00)) == 0x3CD8_2DFB
    ensures CrcBits(0x3CD8_2DFB, ByteBitSeq(0x00)) == 0x3913_0DF4
    ensures CrcBits(0x3913_0DF4, ByteBitSeq(0xE0)) == 0x205F_4FE6
    ensures CrcBits(0x205F_4FE6, ByteBitSeq(0x10)) == 0x8B7D_8B90
  {
  }

  /** The register after bytes 12 to 15 of the test section, computed bit by bit. */
  lemma TestPatRegisters12To15()
    ensures CrcBits(0x8B7D_8B90, ByteBitSeq(0x5C)) == 0x7257_8BEC
    ensures CrcBits(0x7257_8BEC, ByteBitSeq(0x38)) == 0x4C87_4AA1
    ensures CrcBits(0x4C87_4AA1, ByteBitSeq(0xE1)) == 0x47A8_71DD
    ensures CrcBits(0x47A8_71DD, ByteBitSeq(0x01)) == 0x8671_E0C5
  {
  }

  /** The register after bytes 16 to 19 of the test section, computed bit by bit. */
  lemma TestPatRegisters16To19()
    ensures CrcBits(0x8671_E0C5, ByteBitSeq(0x5C)) == 0x4FF1_583F
    ensures CrcBits(0x4FF1_583F, ByteBitSeq(0x39)) == 0x0B6A_6F55
    ensures CrcBits(0x0B6A_6F55, ByteBitSeq(0xE1)) == 0x804C_A5AF
    ensures CrcBits(0x804C_A5AF, ByteBitSeq(0x02)) == 0x2C2B_7480
  {
  }

  /** The register after bytes 20 to 23 of the test section, computed bit by bit. */
  lemma TestPatRegisters20To23()
    ensures CrcBits(0x2C2B_7480, ByteBitSeq(0x5D)) == 0xCF01_8050
    ensures CrcBits(0xCF01_8050, ByteBitSeq(0xB8)) == 0xFF73_1DE2
    ensures CrcBits(0xFF73_1DE2, ByteBitSeq(0xFF)) == 0x731D_E200
    ensures CrcBits(0x731D_E200, ByteBitSeq(0xC8)) == 0x8B97_461F
  {
  }

  /** The register after bytes 24 to 27 of the test section, computed bit by bit. */
  lemma TestPatRegisters24To27()
    ensures CrcBits(0x8B97_461F, ByteBitSeq(0x5D)) == 0x9C5B_195B
    ensures CrcBits(0x9C5B_195B, ByteBitSeq(0xB9)) == 0xD4FF_868B
    ensures CrcBits(0xD4FF_868B, ByteBitSeq(0xFF)) == 0x4CEE_F681
    ensures CrcBits(0x4CEE_F681, ByteBitSeq(0xC9)) == 0x903F_0A85
  {
  }

  lemma TestPatByte0()
    ensures TestPatStep(0)
  {
    TestPatRegisters0To3();
    assert TestPatRegister(0) == 0xFFFF_FFFF && TestPatByteAt(0) == 0x00 && TestPatRegister(1) == 0x4E08_BFB4;
  }

  lemma TestPatByte1()
    ensures TestPatStep(1)
  {
    TestPatRegisters0To3();
    assert TestPatRegister(1) == 0x4E08_BFB4 && TestPatByteAt(1) == 0xB0 && TestPatRegister(2) == 0xBD89_E903;
  }

  lemma TestPatByte2()
    ensures TestPatStep(2)
  {
    TestPatRegisters0To3();
    assert TestPatRegister(2) == 0xBD89_E903 && TestPatByteAt(2) == 0x1D && TestPatRegister(3) == 0x78C6_550E;
  }

  lemma TestPatByte3()
    ensures TestPatStep(3)
  {
    TestPatRegisters0To3();
    assert TestPatRegister(3) == 0x78C6_550E && TestPatByteAt(3) == 0x7E && TestPatRegister(4) == 0xDCD3_43B2;
  }

  lemma TestPatByte4()
    ensures TestPatStep(4)
  {
    TestPatRegisters4To7();
    assert TestPatRegister(4) == 0xDCD3_43B2 && TestPatByteAt(4) == 0x87 && TestPatRegister(5) == 0x809F_D266;
  }

  lemma TestPatByte5()
    ensures TestPatStep(5)
  {
    TestPatRegisters4To7();
    assert TestPatRegister(5) == 0x809F_D266 && TestPatByteAt(5) == 0xD9 && TestPatRegister(6) == 0xC58C_3D08;
  }

  lemma TestPatByte6()
    ensures TestPatStep(6)
  {
    TestPatRegisters4To7();
    assert TestPatRegister(6) == 0xC58C_3D08 && TestPatByteAt(6) == 0x00 && TestPatRegister(7) == 0xC672_F3F2;
  }

  lemma TestPatByte7()
    ensures TestPatStep(7)
  {
    TestPatRegisters4To7();
    assert TestPatRegister(7) == 0xC672_F3F2 && TestPatByteAt(7) == 0x00 && TestPatRegister(8) == 0x35FF_2F2B;
  }

  lemma TestPatByte8()
    ensures TestPatStep(8)
  {
    TestPatRegisters8To11();
    assert TestPatRegister(8) == 0x35FF_2F2B && TestPatByteAt(8) == 0x00 && TestPatRegister(9) == 0x3CD8_2DFB;
  }

  lemma TestPatByte9()
    ensures TestPatStep(9)
  {
    TestPatRegisters8To11();
    assert TestPatRegister(9) == 0x3CD8_2DFB && TestPatByteAt(9) == 0x00 && TestPatRegister(10) == 0x3913_0DF4;
  }

  lemma TestPatByte10()
    ensures TestPatStep(10)
  {
    TestPatRegisters8To11();
    assert TestPatRegister(10) == 0x3913_0DF4 && TestPatByteAt(10) == 0xE0 && TestPatRegister(11) == 0x205F_4FE6;
  }

  lemma TestPatByte11()
    ensures TestPatStep(11)
  {
    TestPatRegisters8To11();
    assert TestPatRegister(11) == 0x205F_4FE6 && TestPatByteAt(11) == 0x10 && TestPatRegister(12) == 0x8B7D_8B90;
  }

  lemma TestPatByte12()
    ensures TestPatStep(12)
  {
    TestPatRegisters12To15();
    assert TestPatRegister(12) == 0x8B7D_8B90 && TestPatByteAt(12) == 0x5C && TestPatRegister(13) == 0x7257_8BEC;
  }

  lemma TestPatByte13()
    ensures TestPatStep(13)
  {
    TestPatRegisters12To15();
    assert TestPatRegister(13) == 0x7257_8BEC && TestPatByteAt(13) == 0x38 && TestPatRegister(14) == 0x4C87_4AA1;
  }

  lemma TestPatByte14()
    ensures TestPatStep(14)
  {
    TestPatRegisters12To15();
    assert TestPatRegister(14) == 0x4C87_4AA1 && TestPatByteAt(14) == 0xE1 && TestPatRegister(15) == 0x47A8_71DD;
  }

  lemma TestPatByte15()
    ensures TestPatStep(15)
  {
    TestPatRegisters12To15();
    assert TestPatRegister(15) == 0x47A8_71DD && TestPatByteAt(15) == 0x01 && TestPatRegister(16) == 0x8671_E0C5;
  }

  lemma TestPatByte16()
    ensures TestPatStep(16)
  {
    TestPatRegisters16To19();
    assert TestPatRegister(16) == 0x8671_E0C5 && TestPatByteAt(16) == 0x5C && TestPatRegister(17) == 0x4FF1_583F;
  }

  lemma TestPatByte17()
    ensures TestPatStep(17)
  {
    TestPatRegisters16To19();
    assert TestPatRegister(17) == 0x4FF1_583F && TestPatByteAt(17) == 0x39 && TestPatRegister(18) == 0x0B6A_6F55;
  }

  lemma TestPatByte18()
    ensures TestPatStep(18)
  {
    TestPatRegisters16To19();
    assert TestPatRegister(18) == 0x0B6A_6F55 && TestPatByteAt(18) == 0xE1 && TestPatRegister(19) == 0x804C_A5AF;
  }

  lemma TestPatByte19()
    ensures TestPatStep(19)
  {
    TestPatRegisters16To19();
    assert TestPatRegister(19) == 0x804C_A5AF && TestPatByteAt(19) == 0x02 && TestPatRegister(20) == 0x2C2B_7480;
  }

  lemma TestPatByte20()
    ensures TestPatStep(20)
  {
    TestPatRegisters20To23();
    assert TestPatRegister(20) == 0x2C2B_7480 && TestPatByteAt(20) == 0x5D && TestPatRegister(21) == 0xCF01_8050;
  }

  lemma TestPatByte21()
    ensures TestPatStep(21)
  {
    TestPatRegisters20To23();
    assert TestPatRegister(21) == 0xCF01_8050 && TestPatByteAt(21) == 0xB8 && TestPatRegister(22) == 0xFF73_1DE2;
  }

  lemma TestPatByte22()
    ensures TestPatStep(22)
  {
    TestPatRegisters20To23();
    assert TestPatRegister(22) == 0xFF73_1DE2 && TestPatByteAt(22) == 0xFF && TestPatRegister(23) == 0x731D_E200;
  }

  lemma TestPatByte23()
    ensures TestPatStep(23)
  {
    TestPatRegisters20To23();
    assert TestPatRegister(23) == 0x731D_E200 && TestPatByteAt(23) == 0xC8 && TestPatRegister(24) == 0x8B97_461F;
  }

  lemma TestPatByte24()
    ensures TestPatStep(24)
  {
    TestPatRegisters24To27();
    assert TestPatRegister(24) == 0x8B97_461F && TestPatByteAt(24) == 0x5D && TestPatRegister(25) == 0x9C5B_195B;
  }

  lemma TestPatByte25()
    ensures TestPatStep(25)
  {
    TestPatRegisters24To27();
    assert TestPatRegister(25) == 0x9C5B_195B && TestPatByteAt(25) == 0xB9 && TestPatRegister(26) == 0xD4FF_868B;
  }

  lemma TestPatByte26()
    ensures TestPatStep(26)
  {
    TestPatRegisters24To27();
    assert TestPatRegister(26) == 0xD4FF_868B && TestPatByteAt(26) == 0xFF && TestPatRegister(27) == 0x4CEE_F681;
  }

  lemma TestPatByte27()
    ensures TestPatStep(27)
  {
    TestPatRegisters24To27();
    assert TestPatRegister(27) == 0x4CEE_F681 && TestPatByteAt(27) == 0xC9 && TestPatRegister(28) == 0x903F_0A85;
  }

  /** The CRC of the remaining bytes from any register of the run. */
  lemma {:induction false} TestPatRest(k: nat)
    requires k <= 28
    ensures CrcBits(TestPatRegister(k), DataBits(TestPatSection()[k..])) == 0x903F_0A85
    decreases 28 - k
  {
    var d := TestPatSection();
    if k == 28 {
      assert d[28..] == [];
    } else {
      CrcBitsNextByte(TestPatRegister(k), d, k);
      TestPatByte(k);
      TestPatRest(k + 1);
    }
  }

  /** `crc32` of the test PAT section is the CRC_32 the stream carries, 0x903F0A85. */
  lemma TestPatCrc()
    ensures Crc32Spec(TestPatSection()) == 0x903F_0A85
  {
    TestPatRest(0);
    assert TestPatSection()[0..] == TestPatSection();
  }
}
