/**
 * Bit-level reading of byte strings.
 *
 * Python's `&`, `|`, `<<` and `>>` on non-negative integers are modelled by
 * BitAnd, BitOr, ShiftLeft and ShiftRight; the lemmas at the top tie them to
 * `%`, `/` and `*`. `Uimsbf` is the schema engine's big-endian bit extractor
 * (ariblib/mnemonics.py `uimsbf.uimsbf`), written with the same branches as
 * the source; its single-byte branch computes `(x % 2^pos) / 2^shift`, which
 * `MaskedIsAndShift` proves equal to the source's `(x & (2^pos - 2^shift)) >> shift`.
 * `BitString` is an independent bit-by-bit reference for the extractor.
 */
module Bits {

  /** One byte of a packet, section or descriptor. */
  type uint8 = x: int | 0 <= x < 256

  function Pow2(n: nat): (r: nat)
    ensures r >= 1
  {
    if n == 0 then 1 else 2 * Pow2(n - 1)
  }

  /** Python `a & b` on non-negative integers. */
  function BitAnd(a: nat, b: nat): (r: nat)
    ensures r <= a && r <= b
    decreases a
  {
    if a == 0 || b == 0 then 0
    else 2 * BitAnd(a / 2, b / 2) + (if a % 2 == 1 && b % 2 == 1 then 1 else 0)
  }

  /** Python `a | b` on non-negative integers. */
  function BitOr(a: nat, b: nat): (r: nat)
    ensures a <= r && b <= r && r <= a + b
    decreases a + b
  {
    if a == 0 then b
    else if b == 0 then a
    else 2 * BitOr(a / 2, b / 2) + (if a % 2 == 1 || b % 2 == 1 then 1 else 0)
  }

  /** Python `a << n`, one doubling per bit. */
  function ShiftLeft(a: nat, n: nat): nat
    decreases n
  {
    if n == 0 then a else ShiftLeft(2 * a, n - 1)
  }

  /** Python `a >> n`, one halving per bit. */
  function ShiftRight(a: nat, n: nat): nat
    decreases n
  {
    if n == 0 then a else ShiftRight(a / 2, n - 1)
  }

  // ---------------------------------------------------------------------------
  // Arithmetic facts
  // ---------------------------------------------------------------------------

  lemma DivModUnique(x: int, d: int, q: int, r: int)
    requires d > 0 && 0 <= r < d && x == q * d + r
    ensures x / d == q && x % d == r
  {
    var q', r' := x / d, x % d;
    assert x == q' * d + r';
    assert (q - q') * d == r' - r;
    if q > q' {
      MulAtLeast(q - q', d);
    } else if q < q' {
      MulAtLeast(q' - q, d);
    }
  }

  lemma MulAtLeast(a: int, d: int)
    requires a >= 1 && d > 0
    ensures a * d >= d
  {
  }

  lemma Pow2Add(a: nat, b: nat)
    ensures Pow2(a + b) == Pow2(a) * Pow2(b)
    decreases a
  {
    if a > 0 {
      Pow2Add(a - 1, b);
    }
  }

  lemma Pow2Mono(a: nat, b: nat)
    requires a <= b
    ensures Pow2(a) <= Pow2(b)
  {
    Pow2Add(a, b - a);
  }

  lemma DivDiv(x: nat, a: nat, b: nat)
    requires a > 0 && b > 0
    ensures x / a / b == x / (a * b)
  {
    var q := x / a / b;
    var r := (x / a) % b;
    assert x / a == q * b + r;
    assert x == (q * b + r) * a + x % a;
    assert x == q * (a * b) + (r * a + x % a);
    assert r * a + x % a <= (b - 1) * a + (a - 1);
    DivModUnique(x, a * b, q, r * a + x % a);
  }

  lemma MulAssoc(q: int, a: int, b: int)
    ensures q * (a * b) == (q * a) * b
  {
  }

  lemma MulDistr(a: int, b: int, k: int)
    ensures a * k + b * k == (a + b) * k
  {
  }

  lemma ModMod(x: nat, a: nat, k: nat)
    requires a > 0 && k > 0
    ensures a * k > 0
    ensures (x % (a * k)) % k == x % k
  {
    MulAtLeast(a, k);
    var m := a * k;
    var q, y := x / m, x % m;
    assert x == q * m + y;
    MulAssoc(q, a, k);
    var t := y / k;
    assert y == t * k + y % k;
    MulDistr(q * a, t, k);
    assert x == (q * a + t) * k + y % k;
    DivModUnique(x, k, q * a + t, y % k);
  }

  /** Taking the low `m` bits, then the low `k <= m` bits, is taking the low `k` bits. */
  lemma ModModPow2(x: nat, k: nat, m: nat)
    requires k <= m
    ensures (x % Pow2(m)) % Pow2(k) == x % Pow2(k)
  {
    Pow2Add(m - k, k);
    ModMod(x, Pow2(m - k), Pow2(k));
  }

  /** The low `k` bits of `x` are the low `k1 == k - 1` bits of `h == x / 2`, then bit 0 of `x`. */
  lemma ModPow2Step(x: nat, k: nat, k1: nat, h: nat)
    requires k1 + 1 == k && h == x / 2
    ensures x % Pow2(k) == 2 * (h % Pow2(k1)) + x % 2
  {
    var q := h / Pow2(k1);
    var s := h % Pow2(k1);
    assert h == q * Pow2(k1) + s;
    assert x == q * Pow2(k) + (2 * s + x % 2);
    DivModUnique(x, Pow2(k), q, 2 * s + x % 2);
  }

  // ---------------------------------------------------------------------------
  // The operators in terms of arithmetic
  // ---------------------------------------------------------------------------

  /** A mask of the `k` low bits keeps `x % 2^k`. */
  lemma {:induction false} MaskLow(x: nat, k: nat)
    ensures BitAnd(x, Pow2(k) - 1) == x % Pow2(k)
    decreases k
  {
    if k == 0 {
      assert Pow2(k) == 1;
    } else if x == 0 {
      assert BitAnd(x, Pow2(k) - 1) == 0;
    } else {
      var k1, h := k - 1, x / 2;
      var p, p1 := Pow2(k), Pow2(k1);
      assert p == 2 * p1;
      var m := p - 1;
      assert m % 2 == 1 && m / 2 == p1 - 1;
      MaskLow(h, k1);
      var b := BitAnd(h, p1 - 1);
      assert BitAnd(x, m) == 2 * b + x % 2;
      ModPow2Step(x, k, k1, h);
    }
  }

  lemma HalveEven(h: nat)
    ensures (2 * h) % 2 == 0 && (2 * h) / 2 == h
  {
    DivModUnique(2 * h, 2, h, 0);
  }

  lemma BitAndEven(x: nat, m: nat)
    requires x > 0 && m > 0 && m % 2 == 0
    ensures BitAnd(x, m) == 2 * BitAnd(x / 2, m / 2)
  {
  }

  /** The mask `2^pos - 2^shift` selects bits shift..pos-1. */
  lemma {:induction false} MaskRange(x: nat, pos: nat, shift: nat)
    requires shift <= pos
    ensures Pow2(shift) <= Pow2(pos)
    ensures BitAnd(x, Pow2(pos) - Pow2(shift)) == x % Pow2(pos) - x % Pow2(shift)
    decreases shift, 1
  {
    Pow2Mono(shift, pos);
    if shift == 0 {
      assert Pow2(shift) == 1 && x % Pow2(shift) == 0;
      MaskLow(x, pos);
    } else if pos == shift {
      assert BitAnd(x, 0) == 0;
    } else if x == 0 {
      assert BitAnd(x, Pow2(pos) - Pow2(shift)) == 0;
      DivModUnique(x, Pow2(pos), 0, 0);
      DivModUnique(x, Pow2(shift), 0, 0);
    } else {
      MaskRangeStep(x, pos, shift);
    }
  }

  /** The inductive step of MaskRange: one bit is peeled off both the value and the mask. */
  lemma {:induction false} MaskRangeStep(x: nat, pos: nat, shift: nat)
    requires 0 < shift < pos && x > 0
    ensures Pow2(shift) <= Pow2(pos)
    ensures BitAnd(x, Pow2(pos) - Pow2(shift)) == x % Pow2(pos) - x % Pow2(shift)
    decreases shift, 0
  {
    var h, pos1, shift1 := x / 2, pos - 1, shift - 1;
    MaskRange(h, pos1, shift1);
    var p1, s1 := Pow2(pos1), Pow2(shift1);
    Pow2Mono(shift, pos1);
    assert Pow2(shift) == 2 * s1 && Pow2(pos) == 2 * p1;
    var d := p1 - s1;
    HalveEven(d);
    BitAndEven(x, 2 * d);
    ModPow2Step(x, pos, pos1, h);
    ModPow2Step(x, shift, shift1, h);
  }

  /** `a << n` is `a * 2^n`. */
  lemma {:induction false} ShiftLeftValue(a: nat, n: nat)
    ensures ShiftLeft(a, n) == a * Pow2(n)
    decreases n
  {
    if n > 0 {
      ShiftLeftValue(2 * a, n - 1);
      MulAssoc(a, 2, Pow2(n - 1));
    }
  }

  /** `a >> n` is `a / 2^n`. */
  lemma {:induction false} ShiftRightValue(a: nat, n: nat)
    ensures ShiftRight(a, n) == a / Pow2(n)
    decreases n
  {
    if n == 0 {
      DivModUnique(a, 1, a, 0);
    } else {
      ShiftRightValue(a / 2, n - 1);
      DivDiv(a, 2, Pow2(n - 1));
    }
  }

  /** `(a * 2^n) | b` is `a * 2^n + b` when `b` fits in `n` bits. */
  lemma {:induction false} OrMul(a: nat, b: nat, n: nat)
    requires b < Pow2(n)
    ensures BitOr(a * Pow2(n), b) == a * Pow2(n) + b
    decreases n
  {
    if n == 0 || a == 0 || b == 0 {
    } else {
      var s := a * Pow2(n);
      MulAssoc(a, 2, Pow2(n - 1));
      assert s == 2 * (a * Pow2(n - 1));
      HalveEven(a * Pow2(n - 1));
      OrMul(a, b / 2, n - 1);
    }
  }

  /** `(a << n) | b` is `a * 2^n + b` when `b` fits in `n` bits. */
  lemma OrShifted(a: nat, b: nat, n: nat)
    requires b < Pow2(n)
    ensures BitOr(ShiftLeft(a, n), b) == a * Pow2(n) + b
  {
    ShiftLeftValue(a, n);
    OrMul(a, b, n);
  }

  lemma DropRemainder(y: nat, d: nat)
    requires d > 0
    ensures (y - y % d) / d == y / d
  {
    assert y - y % d == (y / d) * d + 0;
    DivModUnique(y - y % d, d, y / d, 0);
  }

  lemma DivLess(y: nat, a: nat, d: nat)
    requires d > 0 && y < a * d
    ensures y / d < a
  {
    assert y == (y / d) * d + y % d;
    MulCancelLess(y / d, a, d);
  }

  lemma MulCancelLess(b: int, a: int, d: int)
    requires d > 0 && b * d < a * d
    ensures b < a
  {
  }

  lemma MulMono(a: int, b: int, d: int)
    requires a <= b && d >= 0
    ensures a * d <= b * d
  {
  }

  /** The single-byte branch of Uimsbf reads bits `shift..pos-1` of the byte. */
  lemma ByteField(x: nat, pos: nat, shift: nat)
    requires shift <= pos
    ensures Pow2(shift) <= Pow2(pos)
    ensures ShiftRight(BitAnd(x, Pow2(pos) - Pow2(shift)), shift) == (x % Pow2(pos)) / Pow2(shift)
  {
    MaskRange(x, pos, shift);
    ShiftRightValue(BitAnd(x, Pow2(pos) - Pow2(shift)), shift);
    ModModPow2(x, shift, pos);
    DropRemainder(x % Pow2(pos), Pow2(shift));
  }

  lemma ModDivLess(x: nat, pos: nat, shift: nat)
    requires shift <= pos
    ensures (x % Pow2(pos)) / Pow2(shift) < Pow2(pos - shift)
  {
    Pow2Add(pos - shift, shift);
    DivLess(x % Pow2(pos), Pow2(pos - shift), Pow2(shift));
  }

  // ---------------------------------------------------------------------------
  // The bit extractor
  // ---------------------------------------------------------------------------

  /** The bits `index .. index + length - 1` lie inside `p` (nothing is read when `length == 0`). */
  predicate InRange(p: seq<uint8>, index: nat, length: nat)
  {
    length == 0 || index + length <= 8 * |p|
  }

  /**
   * Bits `shift .. pos - 1` of `x`, i.e. the value of `(x & (2^pos - 2^shift)) >> shift`;
   * `MaskedIsAndShift` proves the two equal.
   */
  function Masked(x: nat, pos: nat, shift: nat): nat
    requires shift <= pos
  {
    (x % Pow2(pos)) / Pow2(shift)
  }

  /** The field has `pos - shift` bits. */
  lemma MaskedBound(x: nat, pos: nat, shift: nat)
    requires shift <= pos
    ensures Masked(x, pos, shift) < Pow2(pos - shift)
  {
    ModDivLess(x, pos, shift);
  }

  /** The mask-and-shift the extractor writes is the arithmetic field value. */
  lemma MaskedIsAndShift(x: nat, pos: nat, shift: nat)
    requires shift <= pos
    ensures Pow2(shift) <= Pow2(pos)
    ensures Masked(x, pos, shift) == ShiftRight(BitAnd(x, Pow2(pos) - Pow2(shift)), shift)
  {
    ByteField(x, pos, shift);
  }

  /** `(high << n) | low`. */
  function Joined(high: nat, low: nat, n: nat): nat
  {
    BitOr(ShiftLeft(high, n), low)
  }

  /** When `low` fits in `n` bits, `(high << n) | low` is `high * 2^n + low`. */
  lemma JoinedValue(high: nat, low: nat, n: nat)
    requires low < Pow2(n)
    ensures Joined(high, low, n) == high * Pow2(n) + low
  {
    OrShifted(high, low, n);
  }

  /** Joining an `a`-bit head to a `b`-bit tail gives `n == a + b` bits. */
  lemma JoinBound(high: nat, low: nat, a: nat, b: nat, n: nat)
    requires high < Pow2(a) && low < Pow2(b) && n == a + b
    ensures Joined(high, low, b) < Pow2(n)
  {
    JoinedValue(high, low, b);
    Pow2Add(a, b);
    MulMono(high + 1, Pow2(a), Pow2(b));
    MulDistr(high, 1, Pow2(b));
  }

  /** ariblib/mnemonics.py `uimsbf.uimsbf(packet, index, length)`: `length` bits from bit `index`, most significant first. */
  function Uimsbf(p: seq<uint8>, index: nat, length: nat): (r: nat)
    requires InRange(p, index, length)
    ensures r < Pow2(length)
    decreases length
  {
    if length == 0 then 0
    else
      var block := index / 8;
      var start := index % 8;
      var pos := 8 - start;
      if length + start <= 8 then
        var shift := pos - length;
        MaskedBound(p[block], pos, shift);
        Masked(p[block], pos, shift)
      else
        var next, rest := index + pos, length - pos;
        var high := Uimsbf(p, index, pos);
        var low := Uimsbf(p, next, rest);
        JoinBound(high, low, pos, rest, length);
        Joined(high, low, rest)
  }

  /** Bit `j` of the byte `x`, bit 0 being the most significant. */
  function ByteBit(x: nat, j: nat): (r: nat)
    requires j < 8
    ensures r < 2
    decreases 7 - j
  {
    if j == 7 then x % 2 else ByteBit(x / 2, j + 1)
  }

  /** Bit `k` of `p`, bit 0 being the most significant bit of `p[0]`. */
  function Bit(p: seq<uint8>, k: nat): nat
    requires k / 8 < |p|
  {
    ByteBit(p[k / 8], k % 8)
  }

  /** Reference definition: the bits `i .. i + n - 1` read one at a time. */
  function BitString(p: seq<uint8>, i: nat, n: nat): nat
    requires InRange(p, i, n)
    decreases n
  {
    if n == 0 then 0 else 2 * BitString(p, i, n - 1) + Bit(p, i + n - 1)
  }

  /** Big-endian value of a byte string. */
  function BigEndian(s: seq<uint8>): nat
  {
    if s == [] then 0 else BigEndian(s[..|s| - 1]) * 256 + s[|s| - 1]
  }

  lemma InRangeSplit(p: seq<uint8>, i: nat, a: nat, m: nat, j: nat, r: nat)
    requires a <= m && j == i + a && r == m - a && InRange(p, i, m)
    ensures InRange(p, i, a) && InRange(p, j, r)
  {
  }

  lemma ShiftStep(x: int, h: int, y: int, bit: int)
    ensures 2 * (x * h + y) + bit == x * (2 * h) + (2 * y + bit)
  {
  }

  /** Splitting a read of `m` bits after its first `a` bits (the tail starts at bit `j` and has `r` bits):
      the head shifted over the tail. */
  lemma {:induction false} BitStringConcat(p: seq<uint8>, i: nat, a: nat, m: nat, j: nat, r: nat)
    requires a <= m && j == i + a && r == m - a && InRange(p, i, m)
    ensures InRange(p, i, a) && InRange(p, j, r)
    ensures BitString(p, i, m) == BitString(p, i, a) * Pow2(r) + BitString(p, j, r)
    decreases m
  {
    InRangeSplit(p, i, a, m, j, r);
    if r == 0 {
      ConcatEmpty(p, i, a, m, j, r);
    } else {
      var m1, r1, k := m - 1, r - 1, i + m - 1;
      BitStringConcat(p, i, a, m1, j, r1);
      BitStringLast(p, i, m, m1, k);
      BitStringLast(p, j, r, r1, k);
      ConcatStep(BitString(p, i, a), BitString(p, j, r1), Pow2(r1), Bit(p, k),
                 BitString(p, i, m1), BitString(p, i, m), BitString(p, j, r), Pow2(r), r1);
    }
  }

  lemma ConcatEmpty(p: seq<uint8>, i: nat, a: nat, m: nat, j: nat, r: nat)
    requires a <= m && j == i + a && r == m - a && InRange(p, i, m) && r == 0
    ensures InRange(p, i, a) && InRange(p, j, r)
    ensures BitString(p, i, m) == BitString(p, i, a) * Pow2(r) + BitString(p, j, r)
  {
    assert m == a && Pow2(r) == 1 && BitString(p, j, r) == 0;
  }

  /** The last bit of a read: `BitString(p, i, n)` is `BitString(p, i, n1)` followed by bit `k`. */
  lemma BitStringLast(p: seq<uint8>, i: nat, n: nat, n1: nat, k: nat)
    requires 0 < n && n1 == n - 1 && k == i + n1 && InRange(p, i, n)
    ensures InRange(p, i, n1) && k / 8 < |p|
    ensures BitString(p, i, n) == 2 * BitString(p, i, n1) + Bit(p, k)
  {
  }

  lemma ConcatStep(x: int, y: int, h: int, bit: int, whole1: int, whole: int, tail: int, h2: int, r1: nat)
    requires whole1 == x * h + y && whole == 2 * whole1 + bit && tail == 2 * y + bit && h == Pow2(r1) && h2 == Pow2(r1 + 1)
    ensures whole == x * h2 + tail
  {
    ShiftStep(x, h, y, bit);
  }

  /** Bit `j` of a byte is `(x >> k) & 1` with `k == 7 - j`. */
  lemma {:induction false} ByteBitShift(x: nat, j: nat, k: nat)
    requires j < 8 && k == 7 - j
    ensures ByteBit(x, j) == ShiftRight(x, k) % 2
    decreases k
  {
    if j < 7 {
      ByteBitShift(x / 2, j + 1, k - 1);
    }
  }

  /** The low `m` bits of `x`, that is `x % 2^m`, defined bit by bit. */
  function Low(x: nat, m: nat): nat
    decreases m
  {
    if m == 0 then 0 else 2 * Low(x / 2, m - 1) + x % 2
  }

  lemma {:induction false} LowValue(x: nat, m: nat)
    ensures Low(x, m) == x % Pow2(m)
    decreases m
  {
    if m == 0 {
      DivModUnique(x, 1, x, 0);
    } else {
      var m1, h := m - 1, x / 2;
      LowValue(h, m1);
      ModPow2Step(x, m, m1, h);
    }
  }

  /** One more shift (`u == t + 1`) halves the result. */
  lemma {:induction false} ShiftRightHalf(y: nat, t: nat, u: nat)
    requires u == t + 1
    ensures ShiftRight(y, u) == ShiftRight(y, t) / 2
    decreases t
  {
    if t > 0 {
      ShiftRightHalf(y / 2, t - 1, t);
    }
  }

  /** Below bit `m`, the low bits of `x` have the bits of `x`. */
  lemma {:induction false} LowBit(x: nat, m: nat, t: nat)
    requires t < m
    ensures ShiftRight(Low(x, m), t) % 2 == ShiftRight(x, t) % 2
    decreases t
  {
    if t > 0 {
      assert Low(x, m) / 2 == Low(x / 2, m - 1);
      LowBit(x / 2, m - 1, t - 1);
    }
  }

  /** The low `m` bits shifted right by `t == m` leave nothing. */
  lemma {:induction false} LowShiftedOut(x: nat, m: nat, t: nat)
    requires t == m
    ensures ShiftRight(Low(x, m), t) == 0
    decreases m
  {
    if m > 0 {
      assert Low(x, m) / 2 == Low(x / 2, m - 1);
      LowShiftedOut(x / 2, m - 1, t - 1);
    }
  }

  /** The masked field is the low `pos` bits shifted right by `shift`. */
  lemma MaskedLow(x: nat, pos: nat, shift: nat, u: nat)
    requires shift <= pos && u == Masked(x, pos, shift)
    ensures u == ShiftRight(Low(x, pos), shift)
  {
    var y := Low(x, pos);
    assert u == (x % Pow2(pos)) / Pow2(shift);
    LowValue(x, pos);
    ShiftRightValue(y, shift);
  }

  /** Bit index `8 * b + r` lies in byte `b` at offset `r`. */
  lemma Div8(i: nat, b: nat, r: nat)
    requires i == 8 * b + r && r < 8
    ensures i / 8 == b && i % 8 == r
  {
    DivModUnique(i, 8, b, r);
  }

  /** Bits `s .. s + n` of one byte, most significant first, read one at a time. */
  function ByteBits(x: nat, s: nat, n: nat): nat
    requires s + n <= 8
  {
    if n == 0 then 0 else 2 * ByteBits(x, s, n - 1) + ByteBit(x, s + n - 1)
  }

  lemma {:induction false} BitStringInByte(p: seq<uint8>, i: nat, b: nat, s: nat, n: nat)
    requires b < |p| && i == 8 * b + s && s + n <= 8
    ensures InRange(p, i, n)
    ensures BitString(p, i, n) == ByteBits(p[b], s, n)
    decreases n
  {
    if n > 0 {
      var n1, k, j := n - 1, i + n - 1, s + n - 1;
      BitStringInByte(p, i, b, s, n1);
      BitStringLast(p, i, n, n1, k);
      ByteBitsLast(p[b], s, n, n1, j);
      Div8(k, b, j);
    }
  }

  /** The bits `s .. s + n` of a byte are its low `m == 8 - s` bits shifted right by `t == m - n`. */
  lemma {:induction false} ByteBitsValue(x: nat, s: nat, n: nat, m: nat, t: nat)
    requires s + n <= 8 && m == 8 - s && t == m - n
    ensures ByteBits(x, s, n) == ShiftRight(Low(x, m), t)
    decreases n
  {
    if n == 0 {
      LowShiftedOut(x, m, t);
    } else {
      var n1, t1, j := n - 1, t + 1, s + n - 1;
      ByteBitsValue(x, s, n1, m, t1);
      ByteBitsLast(x, s, n, n1, j);
      var y := Low(x, m);
      ShiftRightHalf(y, t, t1);
      ByteBitShift(x, j, t);
      LowBit(x, m, t);
    }
  }

  lemma ByteBitsLast(x: nat, s: nat, n: nat, n1: nat, j: nat)
    requires 0 < n && n1 == n - 1 && j == s + n1 && s + n <= 8
    ensures j < 8 && ByteBits(x, s, n) == 2 * ByteBits(x, s, n1) + ByteBit(x, j)
  {
  }

  /** Uimsbf agrees with the bit-by-bit reference on every input. */
  lemma {:induction false} UimsbfIsBitString(p: seq<uint8>, i: nat, n: nat)
    requires InRange(p, i, n)
    ensures Uimsbf(p, i, n) == BitString(p, i, n)
    decreases n, 1
  {
    if n == 0 {
    } else if n + i % 8 <= 8 {
      UimsbfInByte(p, i, n, i / 8, i % 8);
    } else {
      UimsbfSplit(p, i, n);
    }
  }

  lemma UimsbfInByte(p: seq<uint8>, i: nat, n: nat, b: nat, s: nat)
    requires i == 8 * b + s && s < 8 && 0 < n && s + n <= 8 && InRange(p, i, n)
    ensures Uimsbf(p, i, n) == BitString(p, i, n)
  {
    var pos, shift := 8 - s, 8 - s - n;
    BitStringInByte(p, i, b, s, n);
    ByteBitsValue(p[b], s, n, pos, shift);
    UimsbfOneByte(p, i, n, b, s, pos, shift);
    MaskedLow(p[b], pos, shift, Uimsbf(p, i, n));
  }

  /** A read that stays inside byte `b`, from offset `s`, is the masked and shifted byte. */
  lemma UimsbfOneByte(p: seq<uint8>, i: nat, n: nat, b: nat, s: nat, pos: nat, shift: nat)
    requires i == 8 * b + s && s < 8 && 0 < n && s + n <= 8 && InRange(p, i, n)
    requires pos == 8 - s && shift == pos - n
    ensures b < |p| && Uimsbf(p, i, n) == Masked(p[b], pos, shift)
  {
    Div8(i, b, s);
  }

  /** The two-part branch of Uimsbf against the reference. */
  lemma {:induction false} UimsbfSplit(p: seq<uint8>, i: nat, n: nat)
    requires n + i % 8 > 8 && InRange(p, i, n)
    ensures Uimsbf(p, i, n) == BitString(p, i, n)
    decreases n, 0
  {
    var pos := 8 - i % 8;
    var j, r := i + pos, n - pos;
    UimsbfTwoParts(p, i, n, pos, j, r);
    var high, low := Uimsbf(p, i, pos), Uimsbf(p, j, r);
    JoinedValue(high, low, r);
    UimsbfIsBitString(p, i, pos);
    UimsbfIsBitString(p, j, r);
    BitStringConcat(p, i, pos, n, j, r);
  }

  /** A read that crosses a byte boundary joins the rest of the first byte (`pos` bits) with the
      remaining `r` bits from bit `j`. */
  lemma UimsbfTwoParts(p: seq<uint8>, i: nat, n: nat, pos: nat, j: nat, r: nat)
    requires pos == 8 - i % 8 && n > pos && j == i + pos && r == n - pos && InRange(p, i, n)
    ensures InRange(p, i, pos) && InRange(p, j, r)
    ensures Uimsbf(p, i, n) == Joined(Uimsbf(p, i, pos), Uimsbf(p, j, r), r)
  {
  }

  /** Concatenation law: a read of `m` bits is its first `a` bits shifted over the remaining `r` bits,
      which start at bit `j`. */
  lemma UimsbfConcat(p: seq<uint8>, i: nat, a: nat, m: nat, j: nat, r: nat)
    requires a <= m && j == i + a && r == m - a && InRange(p, i, m)
    ensures InRange(p, i, a) && InRange(p, j, r)
    ensures Uimsbf(p, i, m) == Uimsbf(p, i, a) * Pow2(r) + Uimsbf(p, j, r)
  {
    BitStringConcat(p, i, a, m, j, r);
    UimsbfIsBitString(p, i, m);
    UimsbfIsBitString(p, i, a);
    UimsbfIsBitString(p, j, r);
  }

  /** The reference reads only the bytes holding its bits. */
  lemma {:induction false} BitStringFrame(p: seq<uint8>, q: seq<uint8>, i: nat, n: nat)
    requires 0 < n && InRange(p, i, n) && InRange(q, i, n)
    requires forall k :: i / 8 <= k <= (i + n - 1) / 8 ==> p[k] == q[k]
    ensures BitString(p, i, n) == BitString(q, i, n)
    decreases n
  {
    if n > 1 {
      BitStringFrame(p, q, i, n - 1);
    }
    assert p[(i + n - 1) / 8] == q[(i + n - 1) / 8];
  }

  /** Uimsbf reads only bytes `i / 8 .. (i + n - 1) / 8`: inputs that agree there give the same value. */
  lemma UimsbfFrame(p: seq<uint8>, q: seq<uint8>, i: nat, n: nat)
    requires 0 < n && InRange(p, i, n) && InRange(q, i, n)
    requires forall k :: i / 8 <= k <= (i + n - 1) / 8 ==> p[k] == q[k]
    ensures Uimsbf(p, i, n) == Uimsbf(q, i, n)
  {
    BitStringFrame(p, q, i, n);
    UimsbfIsBitString(p, i, n);
    UimsbfIsBitString(q, i, n);
  }

  /** The reference reads the whole byte `k` (bits `i .. i + w` with `i == 8 k`, `w == 8`) as that byte. */
  lemma BitStringByte(p: seq<uint8>, k: nat, i: nat, w: nat)
    requires k < |p| && i == 8 * k && w == 8
    ensures InRange(p, i, w) && BitString(p, i, w) == p[k]
  {
    var x: nat := p[k];
    BitStringInByte(p, i, k, 0, w);
    ByteBitsValue(x, 0, w, w, 0);
    LowValue(x, 8);
    assert Pow2(8) == 256;
    DivModUnique(x, 256, 0, x);
  }

  /** Appending the whole byte `k` (bits `j .. j + w`, `w == 8`) to a read of `a` bits from bit `i`. */
  lemma LastByte(p: seq<uint8>, i: nat, a: nat, m: nat, j: nat, k: nat, w: nat)
    requires j == i + a && j == 8 * k && w == 8 && m == a + w && k < |p|
    ensures InRange(p, i, a) && InRange(p, i, m)
    ensures BitString(p, i, m) == BitString(p, i, a) * 256 + p[k]
  {
    BitStringByte(p, k, j, w);
    BitStringConcat(p, i, a, m, j, w);
    assert Pow2(w) == 256;
  }

  /** The first `k` bytes are the first `k - 1` bytes shifted over byte `k - 1`. */
  lemma BigEndianPrefix(s: seq<uint8>, k: nat)
    requires 0 < k <= |s|
    ensures BigEndian(s[..k]) == BigEndian(s[..k - 1]) * 256 + s[k - 1]
  {
    assert s[..k][..k - 1] == s[..k - 1];
  }

  lemma BigEndianLast(s: seq<uint8>, k: nat, n: nat)
    requires 0 < n && k + n <= |s|
    ensures BigEndian(s[k..k + n]) == BigEndian(s[k..k + n - 1]) * 256 + s[k + n - 1]
  {
    assert s[k..k + n][..n - 1] == s[k..k + n - 1];
  }

  /** The reference reads the `n` whole bytes from byte `k` (bits `i .. i + m`) as their big-endian value. */
  lemma {:induction false} BitStringBigEndian(p: seq<uint8>, i: nat, m: nat, k: nat, n: nat)
    requires i == 8 * k && m == 8 * n && k + n <= |p|
    ensures InRange(p, i, m)
    ensures BitString(p, i, m) == BigEndian(p[k..k + n])
    decreases n
  {
    if n > 0 {
      var a, j, last := m - 8, i + m - 8, k + n - 1;
      BitStringBigEndian(p, i, a, k, n - 1);
      LastByte(p, i, a, m, j, last, 8);
      BigEndianLast(p, k, n);
    }
  }

  /** A byte-aligned read of the `n` whole bytes from byte `k` is their big-endian value. */
  lemma UimsbfBigEndian(p: seq<uint8>, i: nat, m: nat, k: nat, n: nat)
    requires i == 8 * k && m == 8 * n && k + n <= |p|
    ensures InRange(p, i, m)
    ensures Uimsbf(p, i, m) == BigEndian(p[k..k + n])
  {
    BitStringBigEndian(p, i, m, k, n);
    UimsbfIsBitString(p, i, m);
  }

  lemma UimsbfEightBytes(p: seq<uint8>)
    requires p == [0x33, 0x3F, 0x00, 0x03, 0x00, 0x03, 0xFF, 0xBF]
    ensures InRange(p, 0, 64) && Uimsbf(p, 0, 64) == 0x333F00030003FFBF
  {
    UimsbfBigEndian(p, 0, 64, 0, 8);
    EightBytesBigEndian(p);
  }

  lemma EightBytesBigEndian(p: seq<uint8>)
    requires p == [0x33, 0x3F, 0x00, 0x03, 0x00, 0x03, 0xFF, 0xBF]
    ensures BigEndian(p[0..8]) == 0x333F00030003FFBF
  {
    assert p[0..8] == p[..8];
    assert BigEndian(p[..0]) == 0;
    BigEndianPrefix(p, 1);
    BigEndianPrefix(p, 2);
    BigEndianPrefix(p, 3);
    BigEndianPrefix(p, 4);
    BigEndianPrefix(p, 5);
    BigEndianPrefix(p, 6);
    BigEndianPrefix(p, 7);
    BigEndianPrefix(p, 8);
  }

  /** Bit `j` of the string after its first `k` bytes is bit `8 k + j` of the string. */
  lemma BitDrop(p: seq<uint8>, k: nat, j: nat, t: nat)
    requires k <= |p| && t == 8 * k + j && j / 8 < |p| - k
    ensures t / 8 < |p| && Bit(p[k..], j) == Bit(p, t)
  {
    Div8(j, j / 8, j % 8);
    Div8(t, k + j / 8, j % 8);
  }

  /** Reading after the first `k` bytes is reading at bit offset `8 k` (`t == 8 * k + i`). */
  lemma {:induction false} BitStringDrop(p: seq<uint8>, k: nat, i: nat, t: nat, n: nat)
    requires k <= |p| && t == 8 * k + i && InRange(p[k..], i, n)
    ensures InRange(p, t, n) && BitString(p[k..], i, n) == BitString(p, t, n)
    decreases n
  {
    if n > 0 {
      var n1, j, u := n - 1, i + n - 1, t + n - 1;
      BitStringDrop(p, k, i, t, n1);
      BitStringLast(p[k..], i, n, n1, j);
      BitStringLast(p, t, n, n1, u);
      BitDrop(p, k, j, u);
    }
  }

  /** The extractor applied after the first `k` bytes reads the same bits at offset `8 k + i`. */
  lemma UimsbfDrop(p: seq<uint8>, k: nat, i: nat, t: nat, n: nat)
    requires k <= |p| && t == 8 * k + i && InRange(p[k..], i, n)
    ensures InRange(p, t, n) && Uimsbf(p[k..], i, n) == Uimsbf(p, t, n)
  {
    BitStringDrop(p, k, i, t, n);
    UimsbfIsBitString(p[k..], i, n);
    UimsbfIsBitString(p, t, n);
  }

  /** Byte `k`, read as a field of `w == 8` bits. */
  lemma ByteAt(p: seq<uint8>, i: nat, k: nat, w: nat)
    requires i == 8 * k && k < |p| && w == 8
    ensures InRange(p, i, w) && Uimsbf(p, i, w) == p[k]
  {
    UimsbfOneByte(p, i, w, k, 0, w, 0);
    assert Pow2(w) == 256;
    DivModUnique(p[k], 256, 0, p[k]);
    DivModUnique(p[k], 1, p[k], 0);
  }

  /** A 13-bit PID stored in bytes `k` and `k + 1` behind 3 other bits. */
  function Pid13(p: seq<uint8>, k: nat): (r: nat)
    requires k + 1 < |p|
    ensures r < 8192
  {
    (p[k] as int % 32) * 256 + p[k + 1] as int
  }

  /** The 13 bits from bit `i == 8 k + 3`: the low five bits of byte `k` and all of byte `k + 1`, as in a PID. */
  lemma PidBitsAt(p: seq<uint8>, i: nat, k: nat)
    requires i == 8 * k + 3 && k + 1 < |p|
    ensures InRange(p, i, 13) && Uimsbf(p, i, 13) == Pid13(p, k)
  {
    var j, m, w, r := i + 5, 13, 5, 8;
    UimsbfTwoParts(p, i, m, w, j, r);
    UimsbfOneByte(p, i, w, k, 3, w, 0);
    ByteAt(p, j, k + 1, r);
    assert Pow2(w) == 32 && Pow2(r) == 256;
    DivModUnique(p[k] % 32, 1, p[k] % 32, 0);
    JoinedValue(Uimsbf(p, i, w), Uimsbf(p, j, r), r);
  }

  /** A 12-bit length stored in bytes `k` and `k + 1` behind 4 other bits, as `section_length`. */
  function Low12(p: seq<uint8>, k: nat): (r: nat)
    requires k + 1 < |p|
    ensures r < 4096
  {
    (p[k] as int % 16) * 256 + p[k + 1] as int
  }

  /** The 12 bits from bit `i == 8 k + 4`: the low four bits of byte `k` and all of byte `k + 1`. */
  lemma Low12BitsAt(p: seq<uint8>, i: nat, k: nat)
    requires i == 8 * k + 4 && k + 1 < |p|
    ensures InRange(p, i, 12) && Uimsbf(p, i, 12) == Low12(p, k)
  {
    var j, m, w, r := i + 4, 12, 4, 8;
    UimsbfTwoParts(p, i, m, w, j, r);
    UimsbfOneByte(p, i, w, k, 4, w, 0);
    ByteAt(p, j, k + 1, r);
    assert Pow2(w) == 16 && Pow2(r) == 256;
    DivModUnique(p[k] % 16, 1, p[k] % 16, 0);
    JoinedValue(Uimsbf(p, i, w), Uimsbf(p, j, r), r);
  }

  /** Two bytes read big-endian. */
  lemma BigEndianPair(p: seq<uint8>, j: nat)
    requires j + 2 <= |p|
    ensures BigEndian(p[j..j + 2]) == p[j] as int * 256 + p[j + 1] as int
  {
    BigEndianLast(p, j, 2);
    BigEndianLast(p, j, 1);
  }
}
