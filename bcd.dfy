/**
 * Binary-coded decimal fields and the date/time sentinels
 * (ariblib/parse.py and the matching field kinds of ariblib/mnemonics.py).
 *
 * A BCD byte holds two decimal digits, one per nibble. Times are three BCD
 * bytes (hours, minutes, seconds); the all-ones pattern means "undefined".
 * The conversion of a Modified Julian Date to a calendar date is floating
 * point in the library and is not modelled; the day number and the BCD time
 * that follow it are.
 */
module Bcd {
  import opened Wrappers
  import opened Bits

  /** `bcd2int`: the high nibble is the tens digit, the low nibble the units digit. */
  function Bcd2Int(b: uint8): (r: nat)
  {
    (b / 16) * 10 + b % 16
  }

  /** The source writes `((b & 0xF0) >> 4) * 10 + (b & 0x0F)`; it is the same number. */
  lemma Bcd2IntIsSourceExpression(b: uint8)
    ensures Bcd2Int(b) == ShiftRight(BitAnd(b, 0xF0), 4) * 10 + BitAnd(b, 0x0F)
  {
    var x: nat := b;
    assert Pow2(4) == 16 && Pow2(8) == 256;
    MaskedIsAndShift(x, 8, 4);
    MaskLow(x, 4);
    DivModUnique(x, 256, 0, x);
  }

  /** Both nibbles are decimal digits. */
  predicate ValidBcd(b: uint8)
  {
    b / 16 <= 9 && b % 16 <= 9
  }

  /** Encoding of a number below 100 as one BCD byte. */
  function ToBcd(n: nat): (b: uint8)
    requires n < 100
  {
    (n / 10) * 16 + n % 10
  }

  /** A valid BCD byte decodes to a number below 100 whose digits are its nibbles. */
  lemma Bcd2IntDigits(b: uint8)
    requires ValidBcd(b)
    ensures Bcd2Int(b) < 100
    ensures Bcd2Int(b) / 10 == b / 16 && Bcd2Int(b) % 10 == b % 16
  {
    DivModUnique(Bcd2Int(b), 10, b / 16, b % 16);
  }

  /** Decoding inverts encoding. */
  lemma Bcd2IntToBcd(n: nat)
    requires n < 100
    ensures ValidBcd(ToBcd(n)) && Bcd2Int(ToBcd(n)) == n
  {
    var b := ToBcd(n);
    DivModUnique(b, 16, n / 10, n % 10);
  }

  /** Encoding inverts decoding on valid BCD bytes. */
  lemma ToBcdBcd2Int(b: uint8)
    requires ValidBcd(b)
    ensures Bcd2Int(b) < 100 && ToBcd(Bcd2Int(b)) == b
  {
    Bcd2IntDigits(b);
  }

  /** `p` is exactly `n` bytes of `0xFF`, the "undefined" pattern. */
  predicate AllOnes(p: seq<uint8>, n: nat)
  {
    |p| == n && forall k :: 0 <= k < |p| ==> p[k] == 0xFF
  }

  /** Why a byte string cannot be decoded as the field the schema declares. */
  datatype DecodeError = EmptyBcd | NotThreeBytes(length: nat) | TooShortForMjd(length: nat)

  /** Hours, minutes and seconds, as `timedelta` is built from them. */
  datatype Hms = Hms(hours: nat, minutes: nat, seconds: nat)
  {
    function TotalSeconds(): nat
    {
      hours * 3600 + minutes * 60 + seconds
    }
  }

  /**
   * `bcd(p)`: the BCD bytes folded most significant first, `x * 100 + bcd2int(y)`.
   * `reduce` over no bytes raises, which is the error case.
   */
  function BcdValue(p: seq<uint8>): (r: Result<nat, DecodeError>)
    ensures r.Err? <==> p == []
    decreases |p|
  {
    if p == [] then Err(EmptyBcd)
    else if |p| == 1 then Ok(Bcd2Int(p[0]))
    else Ok(BcdValue(p[..|p| - 1]).value * 100 + Bcd2Int(p[|p| - 1]))
  }

  /** The decimal number whose two-digit groups are given, most significant first. */
  function Decimal(digits: seq<nat>): nat
  {
    if digits == [] then 0 else Decimal(digits[..|digits| - 1]) * 100 + digits[|digits| - 1]
  }

  function Pow100(n: nat): (r: nat)
    ensures r >= 1
  {
    if n == 0 then 1 else 100 * Pow100(n - 1)
  }

  /**
   * On valid BCD bytes the fold is the decimal number spelled by the digit
   * pairs, and it has at most `2 * |p|` decimal digits.
   */
  lemma {:induction false} BcdValueDecimal(p: seq<uint8>)
    requires p != [] && forall k :: 0 <= k < |p| ==> ValidBcd(p[k])
    ensures BcdValue(p).Ok?
    ensures BcdValue(p).value == Decimal(Digits(p))
    ensures BcdValue(p).value < Pow100(|p|)
    decreases |p|
  {
    var last := p[|p| - 1];
    Bcd2IntDigits(last);
    if |p| == 1 {
      assert Digits(p) == [Bcd2Int(last)];
      assert Digits(p)[..0] == [];
    } else {
      var init := p[..|p| - 1];
      BcdValueDecimal(init);
      assert Digits(p)[..|p| - 1] == Digits(init);
      var v := BcdValue(init).value;
      assert BcdValue(p).value == v * 100 + Bcd2Int(last);
      assert v * 100 + Bcd2Int(last) < (v + 1) * 100;
      assert (v + 1) * 100 <= Pow100(|init|) * 100;
    }
  }

  /** The digit pair of every byte. */
  function Digits(p: seq<uint8>): (d: seq<nat>)
    ensures |d| == |p| && forall k :: 0 <= k < |p| ==> d[k] == Bcd2Int(p[k])
  {
    seq(|p|, k requires 0 <= k < |p| => Bcd2Int(p[k]))
  }

  /**
   * `bcdtime(p)`: `None` for `FF FF FF`, otherwise the three decoded bytes.
   * Unpacking any other number of bytes into three names raises.
   */
  function BcdTime(p: seq<uint8>): (r: Result<Option<Hms>, DecodeError>)
    ensures |p| != 3 <==> r.Err?
    ensures r.Ok? ==> (r.value.None? <==> AllOnes(p, 3))
    ensures r.Ok? && r.value.Some? ==>
      r.value.value == Hms(Bcd2Int(p[0]), Bcd2Int(p[1]), Bcd2Int(p[2]))
  {
    if |p| != 3 then Err(NotThreeBytes(|p|))
    else if p == [0xFF, 0xFF, 0xFF] then Ok(None)
    else
      Ok(Some(Hms(Bcd2Int(p[0]), Bcd2Int(p[1]), Bcd2Int(p[2]))))
  }

  /** A valid BCD time encodes back to its bytes. */
  lemma BcdTimeRoundTrip(h: nat, m: nat, s: nat)
    requires h < 100 && m < 100 && s < 100
    ensures BcdTime([ToBcd(h), ToBcd(m), ToBcd(s)]) == Ok(Some(Hms(h, m, s)))
  {
    var b0, b1, b2 := ToBcd(h), ToBcd(m), ToBcd(s);
    Bcd2IntToBcd(h);
    Bcd2IntToBcd(m);
    Bcd2IntToBcd(s);
    var p := [b0, b1, b2];
    assert p[0] != 0xFF;
    assert p != [0xFF, 0xFF, 0xFF];
  }
  /** A Modified Julian Date stamp before the calendar conversion. */
  datatype MjdStamp = MjdStamp(day: nat, time: seq<nat>)

  /**
   * `mjd(p)`: `None` for five `FF` bytes; otherwise the 16-bit day number
   * `(p[0] << 8) | p[1]` and the BCD-decoded bytes after it (`mjd2datetime`
   * substitutes `[0, 0, 0]` when there are none). Fewer than two bytes raise.
   */
  function Mjd(p: seq<uint8>): (r: Result<Option<MjdStamp>, DecodeError>)
    ensures r.Err? <==> |p| < 2 && !AllOnes(p, 5)
    ensures r.Ok? ==> (r.value.None? <==> AllOnes(p, 5))
    ensures r.Ok? && r.value.Some? ==> r.value.value.day < 0x10000
  {
    if p == [0xFF, 0xFF, 0xFF, 0xFF, 0xFF] then Ok(None)
    else if |p| < 2 then Err(TooShortForMjd(|p|))
    else
      var time := if |p| > 2 then Digits(p[2..]) else [0, 0, 0];
      var hi: nat := p[0];
      Ok(Some(MjdStamp(hi * 256 + p[1], time)))
  }

  /** The day number is the source's `(p[0] << 8) | p[1]`, the 16-bit read at bit 0. */
  lemma MjdDayIsSourceExpression(p: seq<uint8>)
    requires |p| >= 2 && !AllOnes(p, 5)
    ensures Mjd(p).Ok? && Mjd(p).value.Some?
    ensures Mjd(p).value.value.day == BitOr(ShiftLeft(p[0], 8), p[1])
    ensures InRange(p, 0, 16) && Mjd(p).value.value.day == Uimsbf(p, 0, 16)
  {
    assert Pow2(8) == 256;
    JoinedValue(p[0], p[1], 8);
    UimsbfBigEndian(p, 0, 16, 0, 2);
    assert p[0..2][..1] == [p[0]];
    assert BigEndian(p[0..2]) == BigEndian(p[0..2][..1]) * 256 + p[1];
    assert BigEndian([p[0]]) == BigEndian([p[0]][..0]) * 256 + p[0];
  }
}
