/**
 * Transport-packet accessors of ariblib/packet.py: the four-byte header
 * (section 2.4.3.2 of ISO/IEC 13818-1), the adaptation field, the payload
 * split at the pointer field (sections 2.4.4.1 and 2.4.4.2), and the integer
 * program-clock-reference base read by `pcrs`.
 */
module Packet {
  import opened Wrappers
  import opened Bits
  import opened Slices

  /** Indexing past the end of the packet raises IndexError in the library. */
  datatype PacketError = IndexError(index: nat) | NameError

  /** `transport_error_indicator`: `(p[1] & 0x80) >> 7`. */
  function TransportErrorIndicator(p: seq<uint8>): nat
    requires |p| >= 2
  {
    Masked(p[1], 8, 7)
  }

  /** `payload_unit_start_indicator`: `(p[1] & 0x40) >> 6`. */
  function PayloadUnitStartIndicator(p: seq<uint8>): nat
    requires |p| >= 2
  {
    Masked(p[1], 7, 6)
  }

  /** `pid`: `((p[1] & 0x1F) << 8) | p[2]`. */
  function Pid(p: seq<uint8>): nat
    requires |p| >= 3
  {
    var hi: nat := p[1] % 32;
    hi * 256 + p[2]
  }

  /** `transport_scrambling_control`: `(p[3] & 0xC0) >> 6`. */
  function TransportScramblingControl(p: seq<uint8>): nat
    requires |p| >= 4
  {
    Masked(p[3], 8, 6)
  }

  /** `has_adaptation`: `(p[3] & 0x20) >> 5`. */
  function HasAdaptation(p: seq<uint8>): nat
    requires |p| >= 4
  {
    Masked(p[3], 6, 5)
  }

  /** `has_payload`: `(p[3] & 0x10) >> 4`. */
  function HasPayload(p: seq<uint8>): nat
    requires |p| >= 4
  {
    Masked(p[3], 5, 4)
  }

  /** `continuity_counter`: `p[3] & 0x0F`. */
  function ContinuityCounter(p: seq<uint8>): nat
    requires |p| >= 4
  {
    p[3] % 16
  }

  /**
   * Each header accessor is the field of its width at its position in the
   * header: flags are bits, the PID has 13 bits, the counter 4.
   */
  lemma HeaderFields(p: seq<uint8>)
    requires |p| >= 4
    ensures InRange(p, 8, 1) && TransportErrorIndicator(p) == Uimsbf(p, 8, 1)
    ensures InRange(p, 9, 1) && PayloadUnitStartIndicator(p) == Uimsbf(p, 9, 1)
    ensures InRange(p, 11, 13) && Pid(p) == Uimsbf(p, 11, 13)
    ensures InRange(p, 24, 2) && TransportScramblingControl(p) == Uimsbf(p, 24, 2)
    ensures InRange(p, 26, 1) && HasAdaptation(p) == Uimsbf(p, 26, 1)
    ensures InRange(p, 27, 1) && HasPayload(p) == Uimsbf(p, 27, 1)
    ensures InRange(p, 28, 4) && ContinuityCounter(p) == Uimsbf(p, 28, 4)
    ensures TransportErrorIndicator(p) < 2 && PayloadUnitStartIndicator(p) < 2
    ensures HasAdaptation(p) < 2 && HasPayload(p) < 2
    ensures Pid(p) < 0x2000 && ContinuityCounter(p) < 16 && TransportScramblingControl(p) < 4
  {
    UimsbfOneByte(p, 8, 1, 1, 0, 8, 7);
    UimsbfOneByte(p, 9, 1, 1, 1, 7, 6);
    UimsbfOneByte(p, 24, 2, 3, 0, 8, 6);
    UimsbfOneByte(p, 26, 1, 3, 2, 6, 5);
    UimsbfOneByte(p, 27, 1, 3, 3, 5, 4);
    UimsbfOneByte(p, 28, 4, 3, 4, 4, 0);
    PidField(p);
    assert Pow2(1) == 2 && Pow2(2) == 4 && Pow2(4) == 16 && Pow2(5) == 32 && Pow2(8) == 256;
    MaskedBound(p[1], 8, 7);
    MaskedBound(p[1], 7, 6);
    MaskedBound(p[3], 8, 6);
    MaskedBound(p[3], 6, 5);
    MaskedBound(p[3], 5, 4);
    DivModUnique(p[3] % 16, 1, p[3] % 16, 0);
  }

  /** The 13-bit PID spans the low five bits of byte 1 and all of byte 2. */
  lemma PidField(p: seq<uint8>)
    requires |p| >= 3
    ensures InRange(p, 11, 13) && Pid(p) == Uimsbf(p, 11, 13)
  {
    UimsbfConcat(p, 11, 5, 13, 16, 8);
    UimsbfOneByte(p, 11, 5, 1, 3, 5, 0);
    UimsbfOneByte(p, 16, 8, 2, 0, 8, 0);
    assert Pow2(5) == 32 && Pow2(8) == 256;
    DivModUnique(p[1] % 32, 1, p[1] % 32, 0);
    DivModUnique(p[2], 256, 0, p[2]);
    DivModUnique(p[2], 1, p[2], 0);
  }

  /** The PID is the source's `((p[1] & 0x1F) << 8) | p[2]`. */
  lemma PidIsSourceExpression(p: seq<uint8>)
    requires |p| >= 3
    ensures Pid(p) == BitOr(ShiftLeft(BitAnd(p[1], 0x1F), 8), p[2])
  {
    assert Pow2(5) == 32 && Pow2(8) == 256;
    MaskLow(p[1], 5);
    JoinedValue(BitAnd(p[1], 0x1F), p[2], 8);
  }

  /** Header `47 60 00 19`: no error, unit start, PID 0, no adaptation, payload, counter 9. */
  lemma HeaderExample(p: seq<uint8>)
    requires |p| >= 4 && p[0] == 0x47 && p[1] == 0x60 && p[2] == 0x00 && p[3] == 0x19
    ensures TransportErrorIndicator(p) == 0 && PayloadUnitStartIndicator(p) == 1
    ensures Pid(p) == 0 && TransportScramblingControl(p) == 0
    ensures HasAdaptation(p) == 0 && HasPayload(p) == 1 && ContinuityCounter(p) == 9
  {
    assert Pow2(8) == 256 && Pow2(7) == 128 && Pow2(6) == 64 && Pow2(5) == 32 && Pow2(4) == 16;
  }

  /**
   * `transport_priority` names its parameter `pakcet` and then reads `packet`,
   * which is not defined in that scope: every call raises NameError.
   */
  function TransportPriorityAsWritten(p: seq<uint8>): (r: Result<nat, PacketError>)
    ensures r == Err(NameError)
  {
    Err(NameError)
  }

  /** The evidently intended `transport_priority`: `(p[1] & 0x20) >> 5`. */
  function TransportPriority(p: seq<uint8>): nat
    requires |p| >= 2
  {
    Masked(p[1], 6, 5)
  }

  /**
   * The library's own header example expects priority 1 from `47 60 00 19`;
   * the intended accessor gives it, the written one raises.
   */
  lemma TransportPriorityExample(p: seq<uint8>)
    requires |p| >= 4 && p[1] == 0x60
    ensures TransportPriority(p) == 1 && InRange(p, 10, 1) && TransportPriority(p) == Uimsbf(p, 10, 1)
    ensures TransportPriorityAsWritten(p).Err?
  {
    assert Pow2(6) == 64 && Pow2(5) == 32;
    UimsbfOneByte(p, 10, 1, 1, 2, 6, 5);
  }

  /** Byte offset of the payload: 4, or past the adaptation field when one is present. */
  function PayloadOffset(p: seq<uint8>): (r: Result<nat, PacketError>)
    requires |p| >= 4
    ensures r.Ok? ==> r.value >= 4
    ensures r.Err? <==> HasAdaptation(p) == 1 && |p| < 5
  {
    if HasAdaptation(p) == 0 then Ok(4)
    else if |p| < 5 then Err(IndexError(4))
    else var len: nat := p[4]; Ok(5 + len)
  }

  /**
   * `payload(packet)`: the pair (rest of the previous section, start of this
   * packet's data). Without payload both are empty; a packet that does not
   * start a unit, or whose data starts with the PES prefix `00 00 01`, gives
   * all its data as the second part; otherwise the pointer byte splits the data.
   */
  function Payload(p: seq<uint8>): (r: Result<(seq<uint8>, seq<uint8>), PacketError>)
    requires |p| >= 4
  {
    if HasPayload(p) == 0 then Ok(([], []))
    else match PayloadOffset(p)
      case Err(e) => Err(e)
      case Ok(start) =>
        if PayloadUnitStartIndicator(p) == 0 then Ok(([], From(p, start)))
        else PointerSplit(p, start)
  }

  /** The data of a unit-start packet from byte `start`: split at its pointer byte unless it is a PES packet. */
  function PointerSplit(p: seq<uint8>, start: nat): Result<(seq<uint8>, seq<uint8>), PacketError>
  {
    if Slice(p, start, start + 3) == [0x00, 0x00, 0x01] then Ok(([], From(p, start)))
    else if start >= |p| then Err(IndexError(start))
    else Ok(SplitAtPointer(p, start))
  }

  /** `packet[start+1 : start+1+pointer]` and `packet[start+1+pointer:]`, with the pointer byte at `start`. */
  function SplitAtPointer(p: seq<uint8>, start: nat): (seq<uint8>, seq<uint8>)
    requires start < |p|
  {
    var pointer := p[start];
    (Slice(p, start + 1, start + 1 + pointer), From(p, start + 1 + pointer))
  }

  /** A continuation packet, or one whose data starts with `00 00 01`, gives all of its data as the second part. */
  lemma PayloadNoPointer(p: seq<uint8>, start: nat)
    requires |p| >= 4 && HasPayload(p) == 1 && PayloadOffset(p) == Ok(start)
    ensures PayloadUnitStartIndicator(p) == 0 ==> Payload(p) == Ok(([], From(p, start)))
    ensures Slice(p, start, start + 3) == [0x00, 0x00, 0x01] ==> Payload(p) == Ok(([], From(p, start)))
    ensures PayloadUnitStartIndicator(p) == 1 && Slice(p, start, start + 3) != [0x00, 0x00, 0x01] && start >= |p| ==>
      Payload(p) == Err(IndexError(start))
  {
  }

  /** The two parts of a pointer split are, together, everything after the pointer byte. */
  lemma SplitAtPointerTail(p: seq<uint8>, start: nat)
    requires start < |p|
    ensures SplitAtPointer(p, start).0 + SplitAtPointer(p, start).1 == From(p, start + 1)
    ensures |SplitAtPointer(p, start).0| <= p[start]
  {
    var pointer := p[start];
    SliceFrom(p, start + 1, start + 1 + pointer);
    SliceFacts(p, start + 1, start + 1 + pointer);
  }

  /** A unit-start packet that is not a PES packet splits its data at the pointer byte. */
  lemma PayloadIsTail(p: seq<uint8>, start: nat)
    requires |p| >= 4 && HasPayload(p) == 1 && PayloadOffset(p) == Ok(start)
    requires PayloadUnitStartIndicator(p) == 1 && Slice(p, start, start + 3) != [0x00, 0x00, 0x01] && start < |p|
    ensures Payload(p).Ok? && Payload(p).value.0 + Payload(p).value.1 == From(p, start + 1)
    ensures |Payload(p).value.0| <= p[start]
  {
    assert Payload(p) == PointerSplit(p, start) == Ok(SplitAtPointer(p, start));
    SplitAtPointerTail(p, start);
  }

  /** A packet without the payload bit yields two empty parts, and a continuation packet no previous part. */
  lemma PayloadEmptyParts(p: seq<uint8>)
    requires |p| >= 4
    ensures HasPayload(p) == 0 ==> Payload(p) == Ok(([], []))
    ensures Payload(p).Ok? && PayloadUnitStartIndicator(p) == 0 ==> Payload(p).value.0 == []
  {
  }

  /**
   * `adaptation_field(packet)`: `None` (the library's empty bytes) without an
   * adaptation field, otherwise the `1 + p[4]` bytes from byte 4.
   */
  function AdaptationFieldBytes(p: seq<uint8>): (r: Result<Option<seq<uint8>>, PacketError>)
    requires |p| >= 4
    ensures r.Err? <==> HasAdaptation(p) == 1 && |p| < 5
    ensures r.Ok? && r.value.Some? ==> HasAdaptation(p) == 1 && 1 <= |r.value.value| <= 1 + (p[4] as nat)
    ensures r.Ok? && r.value.Some? ==> r.value.value[0] == p[4]
  {
    if HasAdaptation(p) == 0 then Ok(None)
    else if |p| < 5 then Err(IndexError(4))
    else var len: nat := p[4]; Ok(Some(Slice(p, 4, 4 + len + 1)))
  }

  /** When the adaptation field is present, the payload begins right after it. */
  lemma PayloadAfterAdaptation(p: seq<uint8>)
    requires |p| >= 5 && HasAdaptation(p) == 1
    ensures AdaptationFieldBytes(p).Ok? && PayloadOffset(p).Ok?
    ensures PayloadOffset(p).value == 4 + 1 + (AdaptationFieldBytes(p).value.value[0] as nat)
  {
  }

  /** `(p[6] << 25) | (p[7] << 17) | (p[8] << 9) | (p[9] << 1) | ((p[10] & 0x80) >> 7)`. */
  function PcrBase(p: seq<uint8>): nat
    requires |p| >= 11
  {
    BitOr(BitOr(BitOr(BitOr(ShiftLeft(p[6], 25), ShiftLeft(p[7], 17)), ShiftLeft(p[8], 9)),
                ShiftLeft(p[9], 1)),
          ShiftRight(BitAnd(p[10], 0x80), 7))
  }

  /**
   * The per-packet step of `pcrs`: a PCR base is read only from a packet with
   * an adaptation field whose length and flag byte are both non-zero.
   */
  function PcrOfPacket(p: seq<uint8>): (r: Option<nat>)
    requires |p| >= 11
    ensures r.Some? <==> HasAdaptation(p) == 1 && p[4] != 0 && p[5] != 0
  {
    if HasAdaptation(p) == 1 && p[4] != 0 && p[5] != 0 then Some(PcrBase(p)) else None
  }

  /** `x | y` adds when the low `n` bits of `x` are clear and `y` fits in them. */
  lemma OrDisjoint(x: nat, y: nat, n: nat, q: nat, hi: nat)
    requires q == Pow2(n) && x == hi * q && y < q
    ensures BitOr(x, y) == x + y
  {
    OrMul(hi, y, n);
  }

  /** The PCR base is `p[6..10]` as a 32-bit number, shifted once, plus the top bit of `p[10]`. */
  lemma PcrBaseValue(p: seq<uint8>)
    requires |p| >= 11
    ensures PcrBase(p) == (p[6] as nat) * 0x2000000 + (p[7] as nat) * 0x20000 + (p[8] as nat) * 0x200 + (p[9] as nat) * 2 + p[10] / 128
  {
    var a: nat := p[6];
    var u1 := BitOr(ShiftLeft(p[6], 25), ShiftLeft(p[7], 17));
    var u2 := BitOr(u1, ShiftLeft(p[8], 9));
    var u3 := BitOr(u2, ShiftLeft(p[9], 1));
    var low := ShiftRight(BitAnd(p[10], 0x80), 7);
    var w1 := a * 256 + p[7];
    OrStep(a, p[7], 25, 17, u1, w1);
    var w2 := w1 * 256 + p[8];
    OrStep(w1, p[8], 17, 9, u2, w2);
    var w3 := w2 * 256 + p[9];
    OrStep(w2, p[9], 9, 1, u3, w3);
    TopBit(p[10], 7, low);
    LastBit(w3, low, 1, PcrBase(p));
    PcrDigits(p[6], p[7], p[8], p[9], w3, low, PcrBase(p));
  }

  /** The last or-step appends one bit. */
  lemma LastBit(acc: nat, low: nat, n1: nat, r: nat)
    requires n1 == 1 && low < 2 && r == BitOr(ShiftLeft(acc, n1), low)
    ensures r == acc * 2 + low
  {
    assert Pow2(n1) == 2;
    OrShifted(acc, low, n1);
  }

  /** The accumulated bytes, doubled, are the PCR base without its last bit. */
  lemma PcrDigits(a: int, b: int, c: int, d: int, acc3: int, low: int, r: int)
    requires acc3 == ((a * 256 + b) * 256 + c) * 256 + d && r == acc3 * 2 + low
    ensures r == a * 0x2000000 + b * 0x20000 + c * 0x200 + d * 2 + low
  {
  }

  /** `(e & 0x80) >> 7` is the top bit of a byte. */
  lemma TopBit(e: uint8, n7: nat, low: nat)
    requires n7 == 7 && low == ShiftRight(BitAnd(e, 0x80), n7)
    ensures low == e / 128 && low < 2
  {
    assert Pow2(8) == 256 && Pow2(7) == 128;
    MaskedIsAndShift(e, 8, 7);
    DivModUnique(e, 256, 0, e);
  }

  /** One step of the shift-and-or: the byte `x` lands in the eight bits below `acc`. */
  lemma OrStep(acc: nat, x: uint8, n: nat, k: nat, u: nat, w: nat)
    requires n == k + 8 && u == BitOr(ShiftLeft(acc, n), ShiftLeft(x, k)) && w == acc * 256 + x
    ensures u == ShiftLeft(w, k)
  {
    var q, qn := Pow2(k), Pow2(n);
    ShiftLeftValue(acc, n);
    ShiftLeftValue(x, k);
    ShiftLeftValue(acc * 256 + x, k);
    Pow2Add(8, k);
    assert Pow2(8) == 256;
    assert qn == 256 * q;
    ByteBelow(x, q, qn);
    OrMul(acc, x * q, n);
    MulAssoc(acc, 256, q);
    MulDistr(acc * 256, x, q);
  }

  lemma ByteBelow(x: uint8, q: nat, qn: nat)
    requires q >= 1 && qn == 256 * q
    ensures x * q < qn
  {
    MulMono(x + 1, 256, q);
    assert (x + 1) * q == x * q + q;
  }

  /** Four bytes read big-endian. */
  lemma FourBytes(s: seq<uint8>, k: nat)
    requires k + 4 <= |s|
    ensures BigEndian(s[k..k + 4]) == (s[k] as nat) * 0x1000000 + (s[k + 1] as nat) * 0x10000 + (s[k + 2] as nat) * 0x100 + s[k + 3]
  {
    BigEndianLast(s, k, 4);
    BigEndianLast(s, k, 3);
    BigEndianLast(s, k, 2);
    BigEndianLast(s, k, 1);
    assert s[k..k] == [];
  }

  /** The PCR base is the 33-bit field at bit 48 of the packet. */
  lemma {:induction false} PcrBaseIsField(p: seq<uint8>)
    requires |p| >= 11
    ensures InRange(p, 48, 33) && PcrBase(p) == Uimsbf(p, 48, 33)
  {
    var whole, high, low := Uimsbf(p, 48, 33), Uimsbf(p, 48, 32), Uimsbf(p, 80, 1);
    PcrBaseParts(p, whole, high, low);
    PcrBaseValue(p);
    FourBytes(p, 6);
    PcrSum(p[6], p[7], p[8], p[9], high, low, whole, PcrBase(p));
  }

  lemma PcrSum(a: int, b: int, c: int, d: int, high: int, low: int, whole: int, r: int)
    requires high == a * 0x1000000 + b * 0x10000 + c * 0x100 + d && whole == high * 2 + low
    requires r == a * 0x2000000 + b * 0x20000 + c * 0x200 + d * 2 + low
    ensures r == whole
  {
  }

  /** Bit 48 of the packet is bit 16 of the adaptation field, which starts at byte 4. */
  lemma PcrBaseInAdaptationField(p: seq<uint8>)
    requires |p| >= 11
    ensures InRange(p[4..], 16, 33) && Uimsbf(p[4..], 16, 33) == PcrBase(p)
  {
    PcrBaseIsField(p);
    UimsbfDrop(p, 4, 16, 48, 33);
  }

  /** The 33-bit field splits into the 32 bits of `p[6..10]` and the top bit of `p[10]`. */
  lemma PcrBaseParts(p: seq<uint8>, whole: nat, high: nat, low: nat)
    requires |p| >= 11 && InRange(p, 48, 33)
    requires whole == Uimsbf(p, 48, 33) && high == Uimsbf(p, 48, 32) && low == Uimsbf(p, 80, 1)
    ensures high == BigEndian(p[6..10]) && low == p[10] / 128 && whole == high * 2 + low
  {
    UimsbfConcat(p, 48, 32, 33, 80, 1);
    assert Pow2(1) == 2;
    UimsbfBigEndian(p, 48, 32, 6, 4);
    UimsbfOneByte(p, 80, 1, 10, 0, 8, 7);
    assert Pow2(8) == 256 && Pow2(7) == 128;
    DivModUnique(p[10], 256, 0, p[10]);
  }
}
