/**
 * The adaptation-field accessors of ariblib/adaptation.py. `p` starts at the
 * adaptation_field_length byte; byte 1 carries eight one-bit flags, most
 * significant first (section 2.4.3.4 of ISO/IEC 13818-1).
 */
module Adaptation {
  import opened Bits

  /** `adaptation_field_length(p)`: byte 0. */
  function AdaptationFieldLength(p: seq<uint8>): uint8
    requires |p| >= 1
  {
    p[0]
  }

  /**
   * Flag `k` (0 = discontinuity_indicator … 7 = adaptation_field_extension_flag):
   * `(p[1] & 2^(7-k)) >> (7-k)`, i.e. bit `7 - k` of `p[1]`.
   */
  function Flag(p: seq<uint8>, k: nat): nat
    requires |p| >= 2 && k < 8
  {
    Masked(p[1], 8 - k, 7 - k)
  }

  function DiscontinuityIndicator(p: seq<uint8>): nat
    requires |p| >= 2
  {
    Flag(p, 0)
  }

  function RandomAccessIndicator(p: seq<uint8>): nat
    requires |p| >= 2
  {
    Flag(p, 1)
  }

  function ElementaryStreamPriorityIndicator(p: seq<uint8>): nat
    requires |p| >= 2
  {
    Flag(p, 2)
  }

  function PcrFlag(p: seq<uint8>): nat
    requires |p| >= 2
  {
    Flag(p, 3)
  }

  function OpcrFlag(p: seq<uint8>): nat
    requires |p| >= 2
  {
    Flag(p, 4)
  }

  function SplicingPointFlag(p: seq<uint8>): nat
    requires |p| >= 2
  {
    Flag(p, 5)
  }

  function TransportPrivateDataFlag(p: seq<uint8>): nat
    requires |p| >= 2
  {
    Flag(p, 6)
  }

  function AdaptationFieldExtensionFlag(p: seq<uint8>): nat
    requires |p| >= 2
  {
    Flag(p, 7)
  }

  /** Every flag is a bit, and it is the one-bit read at bit `8 + k` of the field. */
  lemma FlagIsBit(p: seq<uint8>, k: nat)
    requires |p| >= 2 && k < 8
    ensures Flag(p, k) < 2
    ensures InRange(p, 8 + k, 1) && Flag(p, k) == Uimsbf(p, 8 + k, 1)
  {
    var pos, shift := 8 - k, 7 - k;
    MaskedBound(p[1], pos, shift);
    assert Pow2(pos - shift) == 2;
    UimsbfOneByte(p, 8 + k, 1, 1, k, pos, shift);
  }

  /** Flags 0 to 6 are the source's mask-and-shift; flag 7 is `p[1] & 0x01`. */
  lemma FlagIsSourceExpression(p: seq<uint8>, k: nat)
    requires |p| >= 2 && k < 8
    ensures k < 7 ==> Flag(p, k) == ShiftRight(BitAnd(p[1], Pow2(7 - k)), 7 - k)
    ensures k == 7 ==> Flag(p, k) == BitAnd(p[1], 1)
  {
    var pos, shift := 8 - k, 7 - k;
    MaskedIsAndShift(p[1], pos, shift);
    assert Pow2(pos) == 2 * Pow2(shift);
    if k == 7 {
      assert Pow2(1) - Pow2(0) == 1;
      assert ShiftRight(BitAnd(p[1], 1), 0) == BitAnd(p[1], 1);
    }
  }

  /** The weighted sum of the first `n` flags. */
  function FlagSum(p: seq<uint8>, n: nat): nat
    requires |p| >= 2 && n <= 8
  {
    if n == 0 then 0 else FlagSum(p, n - 1) + Flag(p, n - 1) * Pow2(8 - n)
  }

  /** The first `n` flags are the top `n` bits of the flag byte. */
  lemma {:induction false} FlagSumTopBits(p: seq<uint8>, n: nat, low: nat)
    requires |p| >= 2 && n <= 8 && low == 8 - n
    ensures FlagSum(p, n) == p[1] - p[1] % Pow2(low)
    decreases n
  {
    var x: nat := p[1];
    if n == 0 {
      assert Pow2(8) == 256;
      DivModUnique(x, 256, 0, x);
    } else {
      var n1, high := n - 1, low + 1;
      FlagSumTopBits(p, n1, high);
      TopBitStep(x, high, low, Flag(p, n1));
    }
  }

  /** Adding bit `low` to the bits above it. */
  lemma TopBitStep(x: nat, high: nat, low: nat, bit: nat)
    requires high == low + 1 && bit == Masked(x, high, low)
    ensures x - x % Pow2(high) + bit * Pow2(low) == x - x % Pow2(low)
  {
    var q, y := Pow2(low), x % Pow2(high);
    var d, m := y / q, y % q;
    assert y == d * q + m;
    ModModPow2(x, low, high);
    LinearStep(x, y, d * q, m, x % q);
  }

  lemma LinearStep(x: int, y: int, dq: int, m: int, xm: int)
    requires y == dq + m && m == xm
    ensures x - y + dq == x - xm
  {
  }
  /** The eight flags rebuild the flag byte: `sum of flag_k * 2^(7-k) == p[1]`. */
  lemma FlagsRebuildByte(p: seq<uint8>)
    requires |p| >= 2
    ensures FlagSum(p, 8) == p[1]
  {
    FlagSumTopBits(p, 8, 0);
  }

  /** With flag byte 0x10 (the library's test field, length 0xB7) only PCR_flag is set. */
  lemma OnlyPcrFlag(p: seq<uint8>)
    requires |p| >= 2 && p[0] == 0xB7 && p[1] == 0x10
    ensures AdaptationFieldLength(p) == 0xB7
    ensures PcrFlag(p) == 1
    ensures forall k :: 0 <= k < 8 && k != 3 ==> Flag(p, k) == 0
  {
    assert Pow2(8) == 256 && Pow2(7) == 128 && Pow2(6) == 64 && Pow2(5) == 32;
    assert Pow2(4) == 16 && Pow2(3) == 8 && Pow2(2) == 4 && Pow2(1) == 2;
  }
}
