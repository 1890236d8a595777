/**
 * The service wrapper of ariblib/service.py: the bit fields of a satellite
 * transport_stream_id, the channel name a tuner expects for it ("CS04",
 * "BS15_1"), and the parsing of a channel name back into a broadcasting type
 * and channel number when a `Service` is built from an SDT entry.
 *
 * Python's `int(str)` is modelled on ASCII text only: surrounding whitespace,
 * an optional sign and one or more ASCII decimal digits give the number, and
 * any other string raises ValueError here. Other Unicode decimal digits and
 * underscore separators, which Python also accepts, are not modelled.
 */
module Service {
  import opened Wrappers
  import opened Bits
  import opened Text

  // ---------------------------------------------------------------------
  // parse_tsid

  /** The fields `parse_tsid` unpacks. */
  datatype TsidFields = TsidFields(networkLower4: nat, newField: nat, repeater: nat, slot: nat)

  /** NHK BS (16625 and 16626) is shifted down by one before the fields are read. */
  function AdjustedTsid(tsid: nat): (t: nat)
    ensures t == tsid || (t + 1 == tsid && 16625 <= tsid <= 16626)
  {
    if 16625 <= tsid <= 16626 then tsid - 1 else tsid
  }

  /** The `new` field as the source writes it, `(tsid & 0x0E000) >> 9`: bits 13 to 15, moved to bits 4 to 6. */
  function NewFieldAsWritten(t: nat): nat
  {
    ShiftRight(BitAnd(t, 0xE000), 9)
  }

  /** The `new` field read with the four-digit mask `0x0E00` the other fields use: bits 9 to 11. */
  function NewField(t: nat): nat
  {
    ShiftRight(BitAnd(t, 0x0E00), 9)
  }

  /** `parse_tsid(tsid)` as written, with `new` read through the five-digit mask. */
  function ParseTsid(tsid: nat): TsidFields
  {
    var t := AdjustedTsid(tsid);
    TsidFields(ShiftRight(BitAnd(t, 0xF000), 12), NewFieldAsWritten(t), ShiftRight(BitAnd(t, 0x01F0), 4), BitAnd(t, 0x0007))
  }

  /** `parse_tsid(tsid)` as intended, with `new` read from bits 9 to 11. */
  function ParseTsidIntended(tsid: nat): TsidFields
  {
    ParseTsid(tsid).(newField := NewField(AdjustedTsid(tsid)))
  }

  /**
   * Each field of the intended parse is a bit range of the adjusted tsid:
   * network_lower_4bit bits 12 to 15, new bits 9 to 11, repeater bits 4 to 8,
   * slot bits 0 to 2; so they are below 16, 8, 32 and 8. The parse as written
   * agrees on every field but `new`.
   */
  lemma ParseTsidFields(tsid: nat)
    ensures var f := ParseTsidIntended(tsid); var t := AdjustedTsid(tsid);
      && f.networkLower4 == Masked(t, 16, 12)
      && f.newField == Masked(t, 12, 9)
      && f.repeater == Masked(t, 9, 4)
      && f.slot == Masked(t, 3, 0)
      && f.networkLower4 < 16 && f.newField < 8 && f.repeater < 32 && f.slot < 8
    ensures ParseTsid(tsid).(newField := 0) == ParseTsidIntended(tsid).(newField := 0)
  {
    var t := AdjustedTsid(tsid);
    assert Pow2(0) == 1 && Pow2(3) == 8 && Pow2(4) == 16 && Pow2(5) == 32 && Pow2(9) == 512;
    assert Pow2(12) == 4096 && Pow2(16) == 65536;
    MaskedIsAndShift(t, 16, 12);
    MaskedIsAndShift(t, 12, 9);
    MaskedIsAndShift(t, 9, 4);
    MaskedIsAndShift(t, 3, 0);
    MaskedBound(t, 16, 12);
    MaskedBound(t, 12, 9);
    MaskedBound(t, 9, 4);
    MaskedBound(t, 3, 0);
  }

  /**
   * The `new` field as written holds bits 13 to 15 of the adjusted tsid
   * moved up to bits 4 to 6: a multiple of 16 below 128, never the three-bit
   * value at bits 9 to 11.
   */
  lemma ParseTsidNewAsWritten(tsid: nat)
    ensures var t := AdjustedTsid(tsid);
      ParseTsid(tsid).newField == Masked(t, 16, 13) * 16 && ParseTsid(tsid).newField < 128
  {
    var t := AdjustedTsid(tsid);
    assert Pow2(9) == 512 && Pow2(13) == 8192 && Pow2(16) == 65536 && Pow2(3) == 8;
    MaskRange(t, 16, 13);
    ShiftRightValue(BitAnd(t, 0xE000), 9);
    MaskedBound(t, 16, 13);
    var m := t % 65536;
    var q := m / 8192;
    ModMod(t, 8, 8192);
    assert m == q * 8192 + m % 8192;
    assert m - t % 8192 == q * 8192;
    DivModUnique(q * 8192, 512, q * 16, 0);
  }

  /**
   * The mask as written overlaps network_lower_4bit: for the BS tsid 0x4010
   * it gives 32, outside the three-bit range, where bits 9 to 11 hold 0.
   */
  lemma NewFieldAsWrittenOverlapsNetwork(t: nat)
    requires t == 0x4010
    ensures NewFieldAsWritten(t) == 32 && NewField(t) == 0
    ensures ParseTsid(t).networkLower4 == 4 && ParseTsid(t).newField == 32
    ensures ParseTsidIntended(t).newField == 0
  {
    assert Pow2(9) == 512 && Pow2(12) == 4096 && Pow2(13) == 8192 && Pow2(16) == 65536;
    MaskRange(t, 16, 13);
    MaskRange(t, 12, 9);
    ShiftRightValue(BitAnd(t, 0xE000), 9);
    ShiftRightValue(BitAnd(t, 0x0E00), 9);
    ParseTsidFields(t);
  }

  // ---------------------------------------------------------------------
  // Decimal text

  function DigitChar(d: nat): char
    requires d < 10
  {
    ('0' as int + d) as char
  }

  predicate IsDigit(c: char)
  {
    '0' <= c <= '9'
  }

  function DigitValue(c: char): nat
    requires IsDigit(c)
  {
    c as int - '0' as int
  }

  /** `'{}'.format(n)`: the decimal digits of `n`, no leading zero. */
  function DecimalString(n: nat): (s: string)
    ensures |s| >= 1 && forall k :: 0 <= k < |s| ==> IsDigit(s[k])
    ensures n < 10 <==> |s| == 1
  {
    if n < 10 then [DigitChar(n)] else DecimalString(n / 10) + [DigitChar(n % 10)]
  }

  /** `'{:02d}'.format(n)`: at least two digits, padded with a zero. */
  function Pad2(n: nat): (s: string)
    ensures |s| >= 2 && forall k :: 0 <= k < |s| ==> IsDigit(s[k])
    ensures n < 100 ==> |s| == 2
  {
    if n < 10 then "0" + DecimalString(n) else DecimalString(n)
  }

  /** The number a run of decimal digits spells, most significant first. */
  function DigitsValue(s: string): nat
    requires forall k :: 0 <= k < |s| ==> IsDigit(s[k])
  {
    if s == [] then 0 else DigitsValue(s[..|s| - 1]) * 10 + DigitValue(s[|s| - 1])
  }

  /** Reading back the digits `DecimalString` writes gives the number. */
  lemma {:induction false} DecimalStringValue(n: nat)
    ensures DigitsValue(DecimalString(n)) == n
  {
    var s := DecimalString(n);
    if n < 10 {
      assert s[..0] == [];
    } else {
      DecimalStringValue(n / 10);
      assert s[..|s| - 1] == DecimalString(n / 10);
    }
  }

  /** A leading zero does not change the value. */
  lemma {:induction false} DigitsValueLeadingZero(s: string)
    requires forall k :: 0 <= k < |s| ==> IsDigit(s[k])
    ensures DigitsValue("0" + s) == DigitsValue(s)
    decreases |s|
  {
    if s != [] {
      var z := "0" + s;
      assert z[..|z| - 1] == "0" + s[..|s| - 1];
      DigitsValueLeadingZero(s[..|s| - 1]);
    } else {
      assert ("0" + s)[..0] == [];
    }
  }

  lemma Pad2Value(n: nat)
    ensures DigitsValue(Pad2(n)) == n
  {
    DecimalStringValue(n);
    if n < 10 {
      DigitsValueLeadingZero(DecimalString(n));
    }
  }

  // ---------------------------------------------------------------------
  // tsid2channel

  /** `tsid2channel(tsid)`: "CS" and the two-digit repeater when it is even, else "BS", the repeater, "_" and the slot. */
  function Tsid2Channel(tsid: nat): string
  {
    var f := ParseTsid(tsid);
    if f.repeater % 2 == 0 then "CS" + Pad2(f.repeater)
    else "BS" + Pad2(f.repeater) + "_" + DecimalString(f.slot)
  }

  // ---------------------------------------------------------------------
  // Python string operations used by Service.__init__

  /** `pat in s`. */
  predicate Contains(s: string, pat: string)
    decreases |s|
  {
    |pat| <= |s| && (s[..|pat|] == pat || Contains(s[1..], pat))
  }

  /** `s.replace(pat, '')`: occurrences removed left to right, without overlap. */
  function RemoveAll(s: string, pat: string): (r: string)
    requires pat != []
    ensures |r| <= |s|
    decreases |s|
  {
    if |pat| <= |s| && s[..|pat|] == pat then RemoveAll(s[|pat|..], pat)
    else if s == [] then []
    else [s[0]] + RemoveAll(s[1..], pat)
  }

  /** `s.split(sep)[0]`: everything before the first separator. */
  function BeforeFirst(s: string, sep: char): (r: string)
    ensures |r| <= |s| && r == s[..|r|] && sep !in r
    ensures |r| < |s| ==> s[|r|] == sep
  {
    if s == [] then []
    else if s[0] == sep then []
    else [s[0]] + BeforeFirst(s[1..], sep)
  }

  /** The errors `Service.__init__` can raise. */
  datatype ServiceError = ValueError | IndexError

  predicate AllDigits(s: string)
  {
    forall k :: 0 <= k < |s| ==> IsDigit(s[k])
  }

  /** `int(s)` on ASCII text: surrounding whitespace, an optional sign, then at least one ASCII digit. */
  function ParseInt(s: string): Result<int, ServiceError>
  {
    var t := StripRight(StripLeft(s));
    var negative := t != [] && t[0] == '-';
    var digits := if t != [] && (t[0] == '+' || t[0] == '-') then t[1..] else t;
    if digits == [] || !AllDigits(digits) then Err(ValueError)
    else
      var magnitude: int := DigitsValue(digits);
      Ok(if negative then -magnitude else magnitude)
  }

  /** Text without surrounding whitespace is left as it is. */
  lemma StripUnchanged(s: string)
    requires s != [] && !IsSpace(s[0]) && !IsSpace(s[|s| - 1])
    ensures StripRight(StripLeft(s)) == s
  {
    assert StripLeft(s) == s;
  }

  /** A run of digits parses to the number it spells. */
  lemma ParseIntDigits(s: string)
    requires AllDigits(s) && s != []
    ensures ParseInt(s) == Ok(DigitsValue(s) as int)
  {
    StripUnchanged(s);
  }

  /** A minus sign before a run of digits negates it. */
  lemma ParseIntNegative(s: string, m: string)
    requires AllDigits(s) && s != [] && m == "-" + s
    ensures ParseInt(m) == Ok(-(DigitsValue(s) as int))
  {
    assert m[0] == '-' && m[|m| - 1] == s[|s| - 1];
    StripUnchanged(m);
    assert m[1..] == s;
  }

  // ---------------------------------------------------------------------
  // Service.__init__

  datatype BroadcastingType = BS | CS | GR

  /**
   * The broadcasting type and channel number of a channel id: 'BS' anywhere
   * means BS and the number is the part before the first '_' without "BS";
   * otherwise 'CS' means CS and the number is the id without "CS"; any other
   * id is terrestrial and is a number itself.
   */
  function ChannelOf(channelId: string): Result<(BroadcastingType, int), ServiceError>
  {
    if Contains(channelId, "BS") then
      match ParseInt(RemoveAll(BeforeFirst(channelId, '_'), "BS"))
      case Ok(n) => Ok((BS, n))
      case Err(e) => Err(e)
    else if Contains(channelId, "CS") then
      match ParseInt(RemoveAll(channelId, "CS"))
      case Ok(n) => Ok((CS, n))
      case Err(e) => Err(e)
    else
      match ParseInt(channelId)
      case Ok(n) => Ok((GR, n))
      case Err(e) => Err(e)
  }

  /** A run of digits contains neither "BS" nor "CS" and loses nothing to `replace`. */
  lemma {:induction false} DigitsHaveNoLetters(s: string, pat: string)
    requires AllDigits(s) && |pat| == 2 && !IsDigit(pat[0])
    ensures !Contains(s, pat) && RemoveAll(s, pat) == s
    decreases |s|
  {
    if s != [] {
      DigitsHaveNoLetters(s[1..], pat);
      assert [s[0]] + s[1..] == s;
    }
  }

  lemma ContainsPrefix(s: string, pat: string)
    requires |pat| <= |s| && s[..|pat|] == pat
    ensures Contains(s, pat)
  {
  }

  /** A two-letter prefix followed by digits: it contains the letters, and removing them leaves the digits. */
  lemma PrefixedDigits(pat: string, s: string)
    requires |pat| == 2 && !IsDigit(pat[0]) && AllDigits(s)
    ensures Contains(pat + s, pat) && RemoveAll(pat + s, pat) == s
  {
    var t := pat + s;
    assert t[..2] == pat && t[2..] == s;
    DigitsHaveNoLetters(s, pat);
  }

  /** Nor does such a string contain a pair starting with neither of its letters. */
  lemma PrefixedDigitsLack(pat: string, s: string, other: string)
    requires |pat| == 2 && AllDigits(s) && |other| == 2 && !IsDigit(other[0])
    requires pat[0] != other[0] && pat[1] != other[0]
    ensures !Contains(pat + s, other)
  {
    var t := pat + s;
    assert t[0] == pat[0] && t[1..][0] == pat[1] && t[1..][1..] == s;
    DigitsHaveNoLetters(s, other);
  }

  /** "CS" and digits is read as CS with the digits' value. */
  lemma ChannelOfCs(digits: string)
    requires AllDigits(digits) && digits != []
    ensures ChannelOf("CS" + digits) == Ok((CS, DigitsValue(digits)))
  {
    PrefixedDigits("CS", digits);
    PrefixedDigitsLack("CS", digits, "BS");
    ParseIntDigits(digits);
  }

  /** "BS", digits, "_" and anything is read as BS with the digits' value. */
  lemma ChannelOfBs(digits: string, tail: string)
    requires AllDigits(digits) && digits != []
    ensures ChannelOf("BS" + digits + "_" + tail) == Ok((BS, DigitsValue(digits)))
  {
    var id := "BS" + digits + "_" + tail;
    assert id == ("BS" + digits) + ("_" + tail);
    assert id[..2] == "BS";
    ContainsPrefix(id, "BS");
    BeforeFirstAt(id, "BS" + digits, '_', "_" + tail);
    PrefixedDigits("BS", digits);
    ParseIntDigits(digits);
  }

  /**
   * Round trip: the channel name `tsid2channel` gives for a tsid is read back
   * by `Service` as BS for an odd repeater and CS for an even one, with the
   * repeater as its channel number.
   */
  lemma ChannelOfTsid2Channel(tsid: nat)
    ensures var f := ParseTsid(tsid);
      ChannelOf(Tsid2Channel(tsid)) == Ok((if f.repeater % 2 == 0 then CS else BS, f.repeater))
  {
    var f := ParseTsid(tsid);
    var digits := Pad2(f.repeater);
    Pad2Value(f.repeater);
    if f.repeater % 2 == 0 {
      ChannelOfCs(digits);
    } else {
      ChannelOfBs(digits, DecimalString(f.slot));
    }
  }

  /** Splitting at the first separator when it follows a prefix without one. */
  lemma {:induction false} BeforeFirstAt(s: string, pre: string, sep: char, post: string)
    requires s == pre + post && sep !in pre && post != [] && post[0] == sep
    ensures BeforeFirst(s, sep) == pre
    decreases |pre|
  {
    if pre != [] {
      assert s[1..] == pre[1..] + post;
      BeforeFirstAt(s[1..], pre[1..], sep, post);
    }
  }

  /** The fields of the first service descriptor of an SDT entry. */
  datatype ServiceDescriptor = ServiceDescriptor(serviceType: nat, providerName: string, serviceName: string)

  /** A logo transmission descriptor; `logoChar` is present when the type is 3. */
  datatype LogoTransmission = LogoTransmission(transmissionType: nat, logoChar: string)

  /** One service entry of an SDT, with its descriptors grouped by class. */
  datatype SdtService = SdtService(
    serviceId: nat, eitUserDefinedFlags: nat, eitScheduleFlag: nat, eitPresentFollowingFlag: nat,
    freeCaMode: nat, serviceDescriptors: seq<ServiceDescriptor>, logoTransmissions: seq<LogoTransmission>)

  /** The attributes a `Service` object ends up with. */
  datatype ServiceInfo = ServiceInfo(
    channelId: string, broadcastingType: BroadcastingType, channelNumber: int,
    serviceId: nat, eitFlags: nat, eitSchedule: nat, pseit: nat,
    serviceType: nat, provider: string, name: string, freeCaMode: nat, logo: string)

  /** The logo text of the first type-3 logo transmission, or the empty string. */
  function FirstLogo(ltds: seq<LogoTransmission>): string
  {
    if ltds == [] then ""
    else if ltds[0].transmissionType == 3 then ltds[0].logoChar
    else FirstLogo(ltds[1..])
  }

  /** The `for ... break` over the logo transmission descriptors. */
  method Logo(ltds: seq<LogoTransmission>) returns (logo: string)
    ensures logo == FirstLogo(ltds)
  {
    logo := "";
    var i := 0;
    while i < |ltds|
      invariant 0 <= i <= |ltds|
      invariant forall k :: 0 <= k < i ==> ltds[k].transmissionType != 3
      invariant logo == ""
    {
      if ltds[i].transmissionType == 3 {
        logo := ltds[i].logoChar;
        FirstLogoAt(ltds, i);
        return;
      }
      i := i + 1;
    }
    FirstLogoNone(ltds);
  }

  /** The first type-3 entry decides the logo. */
  lemma {:induction false} FirstLogoAt(ltds: seq<LogoTransmission>, i: nat)
    requires i < |ltds| && ltds[i].transmissionType == 3
    requires forall k :: 0 <= k < i ==> ltds[k].transmissionType != 3
    ensures FirstLogo(ltds) == ltds[i].logoChar
    decreases i
  {
    if i > 0 {
      FirstLogoAt(ltds[1..], i - 1);
    }
  }

  /** Without a type-3 entry the logo stays empty. */
  lemma {:induction false} FirstLogoNone(ltds: seq<LogoTransmission>)
    requires forall k :: 0 <= k < |ltds| ==> ltds[k].transmissionType != 3
    ensures FirstLogo(ltds) == ""
    decreases |ltds|
  {
    if ltds != [] {
      FirstLogoNone(ltds[1..]);
    }
  }

  /**
   * `Service(service, channel_id)`: the channel id is parsed first (ValueError),
   * then `descs[ServiceDescriptor][0]` raises IndexError when there is none.
   */
  function MakeService(service: SdtService, channelId: string): (r: Result<ServiceInfo, ServiceError>)
    ensures r.Ok? <==> ChannelOf(channelId).Ok? && service.serviceDescriptors != []
    ensures r.Ok? ==>
      && r.value.channelId == channelId
      && (r.value.broadcastingType, r.value.channelNumber) == ChannelOf(channelId).value
      && r.value.serviceId == service.serviceId
      && r.value.serviceType == service.serviceDescriptors[0].serviceType
      && r.value.name == service.serviceDescriptors[0].serviceName
      && r.value.logo == FirstLogo(service.logoTransmissions)
    ensures r.Err? ==> r.error == (if ChannelOf(channelId).Err? then ChannelOf(channelId).error else IndexError)
  {
    match ChannelOf(channelId)
    case Err(e) => Err(e)
    case Ok(ch) =>
      if service.serviceDescriptors == [] then Err(IndexError)
      else
        var sd := service.serviceDescriptors[0];
        Ok(ServiceInfo(channelId, ch.0, ch.1, service.serviceId, service.eitUserDefinedFlags,
                       service.eitScheduleFlag, service.eitPresentFollowingFlag, sd.serviceType,
                       sd.providerName, sd.serviceName, service.freeCaMode, FirstLogo(service.logoTransmissions)))
  }

  /** A service built from the channel name of its stream's tsid carries the repeater as its channel number. */
  lemma ServiceOfTsid(service: SdtService, tsid: nat)
    requires service.serviceDescriptors != []
    ensures MakeService(service, Tsid2Channel(tsid)).Ok?
    ensures MakeService(service, Tsid2Channel(tsid)).value.channelNumber == ParseTsid(tsid).repeater
  {
    ChannelOfTsid2Channel(tsid);
  }
}
