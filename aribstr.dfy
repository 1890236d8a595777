/**
 * The ARIB STD-B24 8-unit text decoder of ariblib/aribstr.py (ARIB STD-B24
 * Volume 1 Part 2, chapter 7, built on the code extension of ISO/IEC 2022).
 *
 * `CodeSetController` holds the designations of the four buffers G0-G3, the
 * buffers invoked into GL and GR, a one-shot single shift and the step of an
 * escape sequence in progress. `AribString.convert` pops the input bytes one
 * at a time and writes an ISO-2022-JP byte stream, putting an escape tag in
 * front of a run of characters only when the tag changes.
 *
 * Each mutable object is a class whose state is read back as a datatype
 * (`State()`); every method is proved against a function on that datatype,
 * and the properties of the decoder are lemmas about those functions. The
 * ISO-2022-JP to Unicode decode of `flush_jis_array` and the gaiji tables
 * are parameters (`Env`).
 */
module AribStr {
  import opened Wrappers
  import opened Bits
  import opened Text

  // ---------------------------------------------------------------------
  // Code sets

  datatype Code =
    | Kanji | Alphanumeric | Hiragana | Katakana
    | MosaicA | MosaicB | MosaicC | MosaicD
    | PropAlphanumeric | PropHiragana | PropKatakana
    | JisX0201Katakana | JisKanjiPlane1 | JisKanjiPlane2
    | AdditionalSymbols | Unsupported

  /** A designated graphic set and the number of bytes per character. */
  datatype CodeSet = CodeSet(code: Code, size: nat)

  /** `CODE_SET_G`: the final bytes of the graphic sets. */
  function CodeSetG(f: uint8): Option<CodeSet>
  {
    match f
    case 0x42 => Some(CodeSet(Kanji, 2))
    case 0x4A => Some(CodeSet(Alphanumeric, 1))
    case 0x30 => Some(CodeSet(Hiragana, 1))
    case 0x31 => Some(CodeSet(Katakana, 1))
    case 0x32 => Some(CodeSet(MosaicA, 1))
    case 0x33 => Some(CodeSet(MosaicB, 1))
    case 0x34 => Some(CodeSet(MosaicC, 1))
    case 0x35 => Some(CodeSet(MosaicD, 1))
    case 0x36 => Some(CodeSet(PropAlphanumeric, 1))
    case 0x37 => Some(CodeSet(PropHiragana, 1))
    case 0x38 => Some(CodeSet(PropKatakana, 1))
    case 0x49 => Some(CodeSet(JisX0201Katakana, 1))
    case 0x39 => Some(CodeSet(JisKanjiPlane1, 2))
    case 0x3A => Some(CodeSet(JisKanjiPlane2, 2))
    case 0x3B => Some(CodeSet(AdditionalSymbols, 2))
    case _ => None
  }

  /** `CODE_SET_DRCS`: DRCS-0 has two bytes per character, DRCS-1..15 and the macro set one. */
  function CodeSetDrcs(f: uint8): Option<CodeSet>
  {
    if f == 0x40 then Some(CodeSet(Unsupported, 2))
    else if 0x41 <= f <= 0x4F || f == 0x70 then Some(CodeSet(Unsupported, 1))
    else None
  }

  /** `code in CODE_SET_KEYS`. */
  predicate InCodeSetKeys(f: uint8)
  {
    CodeSetDrcs(f).Some? || CodeSetG(f).Some?
  }

  /** `ARIB_HIRAGANA_MAP` / `ARIB_KATAKANA_MAP`: the kana marks at 0x77..0x7E as JIS row 1 cells. */
  function KanaMark(katakana: bool, c: uint8): uint8
    requires 0x77 <= c <= 0x7E
  {
    match c
    case 0x77 => if katakana then 0x33 else 0x35
    case 0x78 => if katakana then 0x34 else 0x36
    case 0x79 => 0x3C
    case 0x7A => 0x23
    case 0x7B => 0x56
    case 0x7C => 0x57
    case 0x7D => 0x22
    case 0x7E => 0x26
  }

  // ---------------------------------------------------------------------
  // CodeSetController

  /** Buffer indices G0..G3 are 0..3. */
  const G0: nat := 0
  const G1: nat := 1
  const G2: nat := 2
  const G3: nat := 3

  datatype Area = Left | Right

  datatype AribError =
    | EscapeSequenceError(count: nat, data: uint8)
    | DegignationError(code: uint8)
    | KeyError(code: uint8)

  datatype Control = Control(
    slots: seq<CodeSet>,
    singleShift: Option<nat>,
    graphicLeft: nat,
    graphicRight: nat,
    escSeqCount: nat,
    escBufferIndex: nat,
    escDrcs: bool)

  /** Every buffer index names one of the four buffers, and an escape sequence is at most four steps in. */
  predicate Valid(c: Control)
  {
    |c.slots| == 4 && c.graphicLeft < 4 && c.graphicRight < 4
    && (c.singleShift.Some? ==> c.singleShift.value < 4)
    && c.escSeqCount <= 4 && c.escBufferIndex < 4
  }

  /** `CodeSetController.__init__`. */
  function Fresh(): (c: Control)
    ensures Valid(c)
    ensures c.slots == [CodeSet(Kanji, 2), CodeSet(Alphanumeric, 1), CodeSet(Hiragana, 1), CodeSet(Katakana, 1)]
    ensures c.graphicLeft == G0 && c.graphicRight == G2 && c.singleShift == None && c.escSeqCount == 0
  {
    Control([CodeSetG(0x42).value, CodeSetG(0x4A).value, CodeSetG(0x30).value, CodeSetG(0x31).value],
            None, G0, G2, 0, G0, false)
  }

  /** `degignate`: load the set with final byte `code` into the buffer the escape sequence targets. */
  function AfterDegignate(c: Control, code: uint8): (r: Result<Control, AribError>)
    requires Valid(c)
    ensures r.Ok? ==> Valid(r.value) && r.value.escSeqCount == 0
  {
    if !InCodeSetKeys(code) then Err(DegignationError(code))
    else
      var entry := if c.escDrcs then CodeSetDrcs(code) else CodeSetG(code);
      if entry.None? then Err(KeyError(code))
      else Ok(c.(slots := c.slots[c.escBufferIndex := entry.value], escSeqCount := 0))
  }

  /** `invoke`: a locking or single shift into GL, or a locking shift into GR. */
  function AfterInvoke(c: Control, index: nat, area: Area, lockingShift: bool): (r: Control)
    requires Valid(c) && index < 4
    ensures Valid(r) && r.escSeqCount == 0
  {
    var shifted :=
      if area == Left then
        if lockingShift then c.(graphicLeft := index) else c.(singleShift := Some(index))
      else c.(graphicRight := index);
    shifted.(escSeqCount := 0)
  }

  /** The byte ranges of GL and GR. */
  predicate InGL(data: uint8) { 0x21 <= data <= 0x7E }
  predicate InGR(data: uint8) { 0xA1 <= data <= 0xFE }

  /**
   * `get_current_code`: the set for a character byte, and the controller
   * after it (a single shift answers one GL byte and is then cleared).
   */
  function CurrentCode(c: Control, data: uint8): (r: (Option<CodeSet>, Control))
    requires Valid(c)
    ensures Valid(r.1) && r.1.escSeqCount == c.escSeqCount
    ensures r.0.Some? <==> InGL(data) || InGR(data)
  {
    if InGL(data) then
      if c.singleShift.Some? && c.singleShift.value != 0 then
        (Some(c.slots[c.singleShift.value]), c.(singleShift := None))
      else (Some(c.slots[c.graphicLeft]), c)
    else if InGR(data) then (Some(c.slots[c.graphicRight]), c)
    else (None, c)
  }

  /** `set_escape`: retarget the escape sequence (unless `index` is `None`) and advance one step. */
  function AfterSetEscape(c: Control, index: Option<nat>, drcs: bool): (r: Control)
    requires Valid(c) && c.escSeqCount < 4
    requires index.Some? ==> index.value < 4
    ensures Valid(r) && r.escSeqCount == c.escSeqCount + 1
  {
    c.(escBufferIndex := if index.Some? then index.value else c.escBufferIndex,
       escDrcs := drcs,
       escSeqCount := c.escSeqCount + 1)
  }

  /** `do_control`: LS0, LS1, SS2, SS3 and ESC; every other control byte is ignored. */
  function AfterControl(c: Control, data: uint8): (r: Control)
    requires Valid(c)
    ensures Valid(r)
  {
    if data == 0x0F then AfterInvoke(c, G0, Left, true)
    else if data == 0x0E then AfterInvoke(c, G1, Left, true)
    else if data == 0x19 then AfterInvoke(c, G2, Left, false)
    else if data == 0x1D then AfterInvoke(c, G3, Left, false)
    else if data == 0x1B then c.(escSeqCount := 1)
    else c
  }

  /** `do_escape`: one byte of an escape sequence, by the step it is at. */
  function AfterEscape(c: Control, data: uint8): (r: Result<Control, AribError>)
    requires Valid(c)
    ensures r.Ok? ==> Valid(r.value)
  {
    if c.escSeqCount == 1 then
      if data == 0x6E then Ok(AfterInvoke(c, G2, Left, true))
      else if data == 0x6F then Ok(AfterInvoke(c, G3, Left, true))
      else if data == 0x7E then Ok(AfterInvoke(c, G1, Right, true))
      else if data == 0x7D then Ok(AfterInvoke(c, G2, Right, true))
      else if data == 0x7C then Ok(AfterInvoke(c, G3, Right, true))
      else if data == 0x24 || data == 0x28 then Ok(AfterSetEscape(c, Some(G0), false))
      else if data == 0x29 then Ok(AfterSetEscape(c, Some(G1), false))
      else if data == 0x2A then Ok(AfterSetEscape(c, Some(G2), false))
      else if data == 0x2B then Ok(AfterSetEscape(c, Some(G3), false))
      else Err(EscapeSequenceError(c.escSeqCount, data))
    else if c.escSeqCount == 2 then
      if data == 0x20 then Ok(AfterSetEscape(c, None, true))
      else if data == 0x28 then Ok(AfterSetEscape(c, Some(G0), false))
      else if data == 0x29 then Ok(AfterSetEscape(c, Some(G1), false))
      else if data == 0x2A then Ok(AfterSetEscape(c, Some(G2), false))
      else if data == 0x2B then Ok(AfterSetEscape(c, Some(G3), false))
      else AfterDegignate(c, data)
    else if c.escSeqCount == 3 then
      if data == 0x20 then Ok(AfterSetEscape(c, None, true))
      else AfterDegignate(c, data)
    else if c.escSeqCount == 4 then AfterDegignate(c, data)
    else Ok(c)
  }

  /** `CodeSetController`: the object `AribString.control` refers to. */
  class CodeSetController {
    var slots: seq<CodeSet>
    var singleShift: Option<nat>
    var graphicLeft: nat
    var graphicRight: nat
    var escSeqCount: nat
    var escBufferIndex: nat
    var escDrcs: bool

    function State(): Control
      reads this
    {
      Control(slots, singleShift, graphicLeft, graphicRight, escSeqCount, escBufferIndex, escDrcs)
    }

    constructor()
      ensures State() == Fresh()
    {
      slots := [CodeSet(Kanji, 2), CodeSet(Alphanumeric, 1), CodeSet(Hiragana, 1), CodeSet(Katakana, 1)];
      singleShift := None;
      graphicLeft := G0;
      graphicRight := G2;
      escSeqCount := 0;
      escBufferIndex := G0;
      escDrcs := false;
    }

    /** Raises (returns the error) without changing anything, or designates. */
    method Degignate(code: uint8) returns (err: Option<AribError>)
      requires Valid(State())
      modifies this
      ensures match AfterDegignate(old(State()), code)
        case Ok(c) => err == None && State() == c
        case Err(e) => err == Some(e) && State() == old(State())
    {
      if !InCodeSetKeys(code) {
        return Some(DegignationError(code));
      }
      var entry := if escDrcs then CodeSetDrcs(code) else CodeSetG(code);
      if entry.None? {
        return Some(KeyError(code));
      }
      slots := slots[escBufferIndex := entry.value];
      escSeqCount := 0;
      err := None;
    }

    method Invoke(index: nat, area: Area, lockingShift: bool)
      requires Valid(State()) && index < 4
      modifies this
      ensures State() == AfterInvoke(old(State()), index, area, lockingShift)
    {
      if area == Left {
        if lockingShift {
          graphicLeft := index;
        } else {
          singleShift := Some(index);
        }
      } else {
        graphicRight := index;
      }
      escSeqCount := 0;
    }

    method GetCurrentCode(data: uint8) returns (code: Option<CodeSet>)
      requires Valid(State())
      modifies this
      ensures (code, State()) == CurrentCode(old(State()), data)
    {
      if InGL(data) {
        if singleShift.Some? && singleShift.value != 0 {
          code := Some(slots[singleShift.value]);
          singleShift := None;
          return;
        }
        return Some(slots[graphicLeft]);
      } else if InGR(data) {
        return Some(slots[graphicRight]);
      }
      return None;
    }

    method SetEscape(index: Option<nat>, drcs: bool)
      requires Valid(State()) && escSeqCount < 4
      requires index.Some? ==> index.value < 4
      modifies this
      ensures State() == AfterSetEscape(old(State()), index, drcs)
    {
      if index.Some? {
        escBufferIndex := index.value;
      }
      escDrcs := drcs;
      escSeqCount := escSeqCount + 1;
    }
  }

  // ---------------------------------------------------------------------
  // Output: the JIS byte stream and the text flushed from it

  /** The three ISO-2022-JP escape tags. */
  datatype Tag = Ascii | Zenkaku | Hankaku

  function TagBytes(t: Tag): seq<uint8>
  {
    match t
    case Ascii => [0x1B, 0x28, 0x42]
    case Zenkaku => [0x1B, 0x24, 0x42]
    case Hankaku => [0x1B, 0x28, 0x49]
  }

  /** `jis_array` with its `esc_seq`, and the `utf_buffer` / `utf_buffer_symbol` text. */
  datatype Output = Output(jis: seq<uint8>, tag: Option<Tag>, utf: string, symbol: string)

  /** `append_str`: the tag goes out only when it differs from the last one written. */
  function Appended(o: Output, t: Tag, chars: seq<uint8>): Output
  {
    o.(jis := o.jis + (if o.tag == Some(t) then [] else TagBytes(t)) + chars, tag := Some(t))
  }

  /** The decode of `flush_jis_array`, a failed decode included, and the gaiji tables. */
  datatype Env = Env(
    withGaiji: bool,
    gaiji: map<nat, string>,
    gaijiTitle: map<nat, string>,
    gaijiOther: map<nat, string>,
    decode: seq<uint8> -> string)

  /** `flush_jis_array`: decode the pending bytes onto the text and start a fresh array. */
  function Flushed(o: Output, decode: seq<uint8> -> string): Output
  {
    if |o.jis| > 0 then Output([], None, o.utf + decode(o.jis), o.symbol) else o
  }

  function Lookup(m: map<nat, string>, k: nat, default: string): string
  {
    if k in m then m[k] else default
  }

  /** The character output of `do_convert` for a set, after the GR bytes are masked to 7 bits. */
  function Emit(o: Output, cs: CodeSet, ch: uint8, ch2: uint8, env: Env, splitSymbol: bool): Output
    requires 0x21 <= ch <= 0x7E
  {
    match cs.code
    case Kanji => Appended(o, Zenkaku, [ch, ch2])
    case JisKanjiPlane1 => Appended(o, Zenkaku, [ch, ch2])
    case JisKanjiPlane2 => Appended(o, Zenkaku, [ch, ch2])
    case Alphanumeric => Appended(o, Ascii, [ch])
    case PropAlphanumeric => Appended(o, Ascii, [ch])
    case Hiragana => Kana(o, false, ch)
    case PropHiragana => Kana(o, false, ch)
    case Katakana => Kana(o, true, ch)
    case PropKatakana => Kana(o, true, ch)
    case JisX0201Katakana => Appended(o, Hankaku, [ch])
    case AdditionalSymbols => Symbol(Flushed(o, env.decode), ch * 256 + ch2, env, splitSymbol)
    case _ => o
  }

  /** A kana: the marks at 0x77 and above go to JIS row 1, the rest to row 4 or 5. */
  function Kana(o: Output, katakana: bool, ch: uint8): Output
    requires 0x21 <= ch <= 0x7E
  {
    if ch >= 0x77 then Appended(o, Zenkaku, [0x21, KanaMark(katakana, ch)])
    else Appended(o, Zenkaku, [if katakana then 0x25 else 0x24, ch])
  }

  /** An additional symbol: its gaiji text, or "??" when the table has none. */
  function Symbol(o: Output, wchar: nat, env: Env, splitSymbol: bool): Output
  {
    if !env.withGaiji then o
    else if splitSymbol then
      if wchar in env.gaijiTitle then o.(symbol := o.symbol + env.gaijiTitle[wchar])
      else o.(utf := o.utf + Lookup(env.gaijiOther, wchar, "??"))
    else o.(utf := o.utf + Lookup(env.gaiji, wchar, "??"))
  }

  // ---------------------------------------------------------------------
  // The decoder

  /** An `AribString`: its controller, the bytes still to convert, and its output. */
  datatype Decoder = Decoder(control: Control, input: seq<uint8>, out: Output, splitSymbol: bool)

  function Initial(bytes: seq<uint8>): Decoder
  {
    Decoder(Fresh(), bytes, Output([], None, "", ""), false)
  }

  /**
   * `do_convert` after `data` was popped: a two-byte set pops a second byte;
   * when the input is empty that pop ends the conversion with the output as
   * it was.
   */
  function AfterChar(d: Decoder, data: uint8, env: Env): (r: Decoder)
    requires Valid(d.control) && (InGL(data) || InGR(data))
    ensures Valid(r.control) && r.control.escSeqCount == d.control.escSeqCount
    ensures |r.input| <= |d.input|
  {
    var (code, c) := CurrentCode(d.control, data);
    var cs := code.value;
    if cs.size == 2 && d.input == [] then d.(control := c)
    else
      var raw2 := if cs.size == 2 then d.input[0] else 0;
      var rest := if cs.size == 2 then d.input[1..] else d.input;
      var ch := if InGR(data) then data % 128 else data;
      var ch2 := if InGR(data) then raw2 % 128 else raw2;
      d.(control := c, input := rest, out := Emit(d.out, cs, ch, ch2, env, d.splitSymbol))
  }

  /** One turn of the `convert` loop on a non-empty input. */
  function Step(d: Decoder, env: Env): (r: Result<Decoder, AribError>)
    requires Valid(d.control) && d.input != []
    ensures r.Ok? ==> Valid(r.value.control) && |r.value.input| < |d.input|
  {
    var data := d.input[0];
    var d1 := d.(input := d.input[1..]);
    if d.control.escSeqCount != 0 then
      match AfterEscape(d.control, data)
      case Ok(c) => Ok(d1.(control := c))
      case Err(e) => Err(e)
    else if InGL(data) || InGR(data) then Ok(AfterChar(d1, data, env))
    else if data == 0x20 || data == 0xA0 || data == 0x09 then Ok(d1.(out := Appended(d1.out, Ascii, [0x20])))
    else if data == 0x0D || data == 0x0A then Ok(d1.(out := Appended(d1.out, Ascii, [0x0A])))
    else Ok(d1.(control := AfterControl(d1.control, data)))
  }

  /** `convert`: run the loop until the input is empty or an error is raised. */
  function Converted(d: Decoder, env: Env): (r: Result<Decoder, AribError>)
    requires Valid(d.control)
    ensures r.Ok? ==> r.value.input == [] && Valid(r.value.control)
    decreases |d.input|
  {
    if d.input == [] then Ok(d)
    else
      match Step(d, env)
      case Ok(d') => Converted(d', env)
      case Err(e) => Err(e)
  }

  /** `str(AribString(bytes))`: convert, flush, and strip trailing whitespace. */
  function StrOf(bytes: seq<uint8>, env: Env): Result<string, AribError>
  {
    match Converted(Initial(bytes), env)
    case Ok(d) => Ok(StripRight(Flushed(d.out, env.decode).utf))
    case Err(e) => Err(e)
  }

  /** `AribString`: the input queue `arib_array`, the output and the controller it drives. */
  class AribString {
    const control: CodeSetController
    var aribArray: seq<uint8>
    var jisArray: seq<uint8>
    var escSeq: Option<Tag>
    var utfBuffer: string
    var utfBufferSymbol: string
    var splitSymbol: bool

    function State(): Decoder
      reads this, control
    {
      Decoder(control.State(), aribArray, Output(jisArray, escSeq, utfBuffer, utfBufferSymbol), splitSymbol)
    }

    constructor(bytes: seq<uint8>)
      ensures fresh(control)
      ensures State() == Initial(bytes)
    {
      control := new CodeSetController();
      aribArray := bytes;
      jisArray := [];
      escSeq := None;
      utfBuffer := "";
      utfBufferSymbol := "";
      splitSymbol := false;
    }

    /** `AribArray.pop0`: the first byte, or `None` where the source raises `AribIndexError`. */
    method Pop0() returns (data: Option<uint8>)
      modifies this
      ensures old(aribArray) == [] ==> data == None && State() == old(State())
      ensures old(aribArray) != [] ==>
        data == Some(old(aribArray)[0]) && State() == old(State()).(input := old(aribArray)[1..])
    {
      if aribArray == [] {
        return None;
      }
      data := Some(aribArray[0]);
      aribArray := aribArray[1..];
    }

    /** `jis_array.append_str`. */
    method AppendStr(t: Tag, chars: seq<uint8>)
      modifies this
      ensures State() == old(State()).(out := Appended(old(State()).out, t, chars))
    {
      if escSeq != Some(t) {
        jisArray := jisArray + TagBytes(t);
      }
      escSeq := Some(t);
      jisArray := jisArray + chars;
    }

    method FlushJisArray(decode: seq<uint8> -> string)
      modifies this
      ensures State() == old(State()).(out := Flushed(old(State()).out, decode))
    {
      if |jisArray| > 0 {
        var uni := decode(jisArray);
        utfBuffer := utfBuffer + uni;
        jisArray := [];
        escSeq := None;
      }
    }

    method DoControl(data: uint8)
      requires Valid(control.State())
      modifies control
      ensures State() == old(State()).(control := AfterControl(old(control.State()), data))
    {
      if data == 0x0F {
        control.Invoke(G0, Left, true);
      } else if data == 0x0E {
        control.Invoke(G1, Left, true);
      } else if data == 0x19 {
        control.Invoke(G2, Left, false);
      } else if data == 0x1D {
        control.Invoke(G3, Left, false);
      } else if data == 0x1B {
        control.escSeqCount := 1;
      }
    }

    method DoEscape(data: uint8) returns (err: Option<AribError>)
      requires Valid(control.State())
      modifies control
      ensures match AfterEscape(old(control.State()), data)
        case Ok(c) => err == None && State() == old(State()).(control := c)
        case Err(e) => err == Some(e)
    {
      err := None;
      if control.escSeqCount == 1 {
        if data == 0x6E {
          control.Invoke(G2, Left, true);
        } else if data == 0x6F {
          control.Invoke(G3, Left, true);
        } else if data == 0x7E {
          control.Invoke(G1, Right, true);
        } else if data == 0x7D {
          control.Invoke(G2, Right, true);
        } else if data == 0x7C {
          control.Invoke(G3, Right, true);
        } else if data == 0x24 || data == 0x28 {
          control.SetEscape(Some(G0), false);
        } else if data == 0x29 {
          control.SetEscape(Some(G1), false);
        } else if data == 0x2A {
          control.SetEscape(Some(G2), false);
        } else if data == 0x2B {
          control.SetEscape(Some(G3), false);
        } else {
          err := Some(EscapeSequenceError(control.escSeqCount, data));
        }
      } else if control.escSeqCount == 2 {
        if data == 0x20 {
          control.SetEscape(None, true);
        } else if data == 0x28 {
          control.SetEscape(Some(G0), false);
        } else if data == 0x29 {
          control.SetEscape(Some(G1), false);
        } else if data == 0x2A {
          control.SetEscape(Some(G2), false);
        } else if data == 0x2B {
          control.SetEscape(Some(G3), false);
        } else {
          err := control.Degignate(data);
        }
      } else if control.escSeqCount == 3 {
        if data == 0x20 {
          control.SetEscape(None, true);
        } else {
          err := control.Degignate(data);
        }
      } else if control.escSeqCount == 4 {
        err := control.Degignate(data);
      }
    }

    /** `do_convert`, called with the byte `convert` has just popped. */
    method DoConvert(data: uint8, env: Env)
      requires Valid(control.State()) && (InGL(data) || InGR(data))
      modifies this, control
      ensures State() == AfterChar(old(State()), data, env)
    {
      var code := control.GetCurrentCode(data);
      var cs := code.value;
      var ch := data;
      var ch2: uint8 := 0;
      if cs.size == 2 {
        var second := Pop0();
        if second.None? {
          return;
        }
        ch2 := second.value;
      }
      if InGR(ch) {
        ch := ch % 128;
        ch2 := ch2 % 128;
      }
      EmitChar(cs, ch, ch2, env);
    }

    /** The output half of `do_convert`, by the set the character belongs to. */
    method EmitChar(cs: CodeSet, ch: uint8, ch2: uint8, env: Env)
      requires 0x21 <= ch <= 0x7E
      modifies this
      ensures State() == old(State()).(out := Emit(old(State()).out, cs, ch, ch2, env, splitSymbol))
    {
      match cs.code {
        case Kanji => AppendStr(Zenkaku, [ch, ch2]);
        case JisKanjiPlane1 => AppendStr(Zenkaku, [ch, ch2]);
        case JisKanjiPlane2 => AppendStr(Zenkaku, [ch, ch2]);
        case Alphanumeric => AppendStr(Ascii, [ch]);
        case PropAlphanumeric => AppendStr(Ascii, [ch]);
        case Hiragana => AppendKana(false, ch);
        case PropHiragana => AppendKana(false, ch);
        case Katakana => AppendKana(true, ch);
        case PropKatakana => AppendKana(true, ch);
        case JisX0201Katakana => AppendStr(Hankaku, [ch]);
        case AdditionalSymbols =>
          FlushJisArray(env.decode);
          WriteSymbol(ch * 256 + ch2, env);
        case _ =>
      }
    }

    /** An additional symbol's gaiji text, written after the pending JIS bytes were flushed. */
    method WriteSymbol(wchar: nat, env: Env)
      modifies this
      ensures State() == old(State()).(out := Symbol(old(State()).out, wchar, env, splitSymbol))
    {
      if env.withGaiji {
        if splitSymbol {
          if wchar in env.gaijiTitle {
            utfBufferSymbol := utfBufferSymbol + env.gaijiTitle[wchar];
          } else {
            utfBuffer := utfBuffer + Lookup(env.gaijiOther, wchar, "??");
          }
        } else {
          utfBuffer := utfBuffer + Lookup(env.gaiji, wchar, "??");
        }
      }
    }

    method AppendKana(katakana: bool, ch: uint8)
      requires 0x21 <= ch <= 0x7E
      modifies this
      ensures State() == old(State()).(out := Kana(old(State()).out, katakana, ch))
    {
      if ch >= 0x77 {
        AppendStr(Zenkaku, [0x21, KanaMark(katakana, ch)]);
      } else {
        AppendStr(Zenkaku, [if katakana then 0x25 else 0x24, ch]);
      }
    }

    /** `convert`: the JIS bytes, or the error an escape sequence raised. */
    method Convert(env: Env) returns (r: Result<seq<uint8>, AribError>)
      requires Valid(control.State())
      modifies this, control
      ensures match Converted(old(State()), env)
        case Ok(d) => r == Ok(d.out.jis) && State() == d
        case Err(e) => r == Err(e)
    {
      ghost var target := Converted(State(), env);
      while true
        invariant Valid(control.State())
        invariant Converted(State(), env) == target
        decreases |aribArray|
      {
        ghost var before := State();
        var popped := Pop0();
        if popped.None? {
          break;
        }
        var data := popped.value;
        if control.escSeqCount != 0 {
          var err := DoEscape(data);
          if err.Some? {
            return Err(err.value);
          }
        } else if InGL(data) || InGR(data) {
          DoConvert(data, env);
        } else if data == 0x20 || data == 0xA0 || data == 0x09 {
          AppendStr(Ascii, [0x20]);
        } else if data == 0x0D || data == 0x0A {
          AppendStr(Ascii, [0x0A]);
        } else {
          DoControl(data);
        }
        assert Step(before, env) == Ok(State());
      }
      r := Ok(jisArray);
    }

    /** `str(self)`: convert, flush the JIS bytes into the text, and strip trailing whitespace. */
    method Str(env: Env) returns (r: Result<string, AribError>)
      requires State() == Initial(State().input)
      modifies this, control
      ensures r == StrOf(old(aribArray), env)
    {
      var converted := Convert(env);
      if converted.Err? {
        return Err(converted.error);
      }
      FlushJisArray(env.decode);
      r := Ok(StripRight(utfBuffer));
    }
  }

  // ---------------------------------------------------------------------
  // Properties

  /** The JIS stream is empty exactly when no tag is in force, and otherwise opens with an escape. */
  predicate Tagged(o: Output)
  {
    (o.tag == None <==> o.jis == []) && (o.jis != [] ==> o.jis[0] == 0x1B)
  }

  lemma AppendedTagged(o: Output, t: Tag, chars: seq<uint8>)
    requires Tagged(o) && chars != []
    ensures Tagged(Appended(o, t, chars))
  {
    if o.tag != Some(t) && o.jis == [] {
      assert Appended(o, t, chars).jis == TagBytes(t) + chars;
    }
  }

  lemma EmitTagged(o: Output, cs: CodeSet, ch: uint8, ch2: uint8, env: Env, splitSymbol: bool)
    requires Tagged(o) && 0x21 <= ch <= 0x7E
    ensures Tagged(Emit(o, cs, ch, ch2, env, splitSymbol))
  {
    match cs.code {
      case Kanji => AppendedTagged(o, Zenkaku, [ch, ch2]);
      case JisKanjiPlane1 => AppendedTagged(o, Zenkaku, [ch, ch2]);
      case JisKanjiPlane2 => AppendedTagged(o, Zenkaku, [ch, ch2]);
      case Alphanumeric => AppendedTagged(o, Ascii, [ch]);
      case PropAlphanumeric => AppendedTagged(o, Ascii, [ch]);
      case Hiragana => KanaTagged(o, false, ch);
      case PropHiragana => KanaTagged(o, false, ch);
      case Katakana => KanaTagged(o, true, ch);
      case PropKatakana => KanaTagged(o, true, ch);
      case JisX0201Katakana => AppendedTagged(o, Hankaku, [ch]);
      case _ =>
    }
  }

  lemma KanaTagged(o: Output, katakana: bool, ch: uint8)
    requires Tagged(o) && 0x21 <= ch <= 0x7E
    ensures Tagged(Kana(o, katakana, ch))
  {
    if ch >= 0x77 {
      AppendedTagged(o, Zenkaku, [0x21, KanaMark(katakana, ch)]);
    } else {
      AppendedTagged(o, Zenkaku, [if katakana then 0x25 else 0x24, ch]);
    }
  }

  lemma StepTagged(d: Decoder, env: Env)
    requires Valid(d.control) && d.input != [] && Tagged(d.out)
    ensures Step(d, env).Ok? ==> Tagged(Step(d, env).value.out)
  {
    var data := d.input[0];
    var d1 := d.(input := d.input[1..]);
    if d.control.escSeqCount == 0 {
      if InGL(data) || InGR(data) {
        var (code, c) := CurrentCode(d1.control, data);
        if !(code.value.size == 2 && d1.input == []) {
          var raw2 := if code.value.size == 2 then d1.input[0] else 0;
          var ch := if InGR(data) then data % 128 else data;
          EmitTagged(d1.out, code.value, ch, if InGR(data) then raw2 % 128 else raw2, env, d1.splitSymbol);
        }
      } else if data == 0x20 || data == 0xA0 || data == 0x09 {
        AppendedTagged(d1.out, Ascii, [0x20]);
      } else if data == 0x0D || data == 0x0A {
        AppendedTagged(d1.out, Ascii, [0x0A]);
      }
    }
  }

  /**
   * Over a whole conversion the JIS stream stays well formed: whenever it
   * holds bytes it opens with an escape tag, and a tag is in force.
   */
  lemma {:induction false} ConvertedTagged(d: Decoder, env: Env)
    requires Valid(d.control) && Tagged(d.out)
    ensures Converted(d, env).Ok? ==> Tagged(Converted(d, env).value.out)
    decreases |d.input|
  {
    if d.input != [] {
      StepTagged(d, env);
      if Step(d, env).Ok? {
        ConvertedTagged(Step(d, env).value, env);
      }
    }
  }

  /** Characters of one tag written in two calls carry the tag once: only a change of tag is marked. */
  lemma AppendedMerges(o: Output, t: Tag, a: seq<uint8>, b: seq<uint8>)
    ensures Appended(Appended(o, t, a), t, b) == Appended(o, t, a + b)
  {
    var p := if o.tag == Some(t) then [] else TagBytes(t);
    assert o.jis + p + a + b == o.jis + p + (a + b);
  }

  lemma EmitExtendsText(o: Output, cs: CodeSet, ch: uint8, ch2: uint8, env: Env, splitSymbol: bool)
    requires 0x21 <= ch <= 0x7E
    ensures o.utf <= Emit(o, cs, ch, ch2, env, splitSymbol).utf
  {
    if cs.code == AdditionalSymbols {
      assert o.utf <= Flushed(o, env.decode).utf;
    }
  }

  lemma StepExtendsText(d: Decoder, env: Env)
    requires Valid(d.control) && d.input != []
    ensures Step(d, env).Ok? ==> d.out.utf <= Step(d, env).value.out.utf
  {
    var data := d.input[0];
    var d1 := d.(input := d.input[1..]);
    if d.control.escSeqCount == 0 && (InGL(data) || InGR(data)) {
      var (code, c) := CurrentCode(d1.control, data);
      if !(code.value.size == 2 && d1.input == []) {
        var raw2 := if code.value.size == 2 then d1.input[0] else 0;
        var ch := if InGR(data) then data % 128 else data;
        EmitExtendsText(d1.out, code.value, ch, if InGR(data) then raw2 % 128 else raw2, env, d1.splitSymbol);
      }
    }
  }

  /** Text once flushed is never taken back: a conversion only appends to `utf_buffer`. */
  lemma {:induction false} ConvertedExtendsText(d: Decoder, env: Env)
    requires Valid(d.control)
    ensures Converted(d, env).Ok? ==> d.out.utf <= Converted(d, env).value.out.utf
    decreases |d.input|
  {
    if d.input != [] {
      StepExtendsText(d, env);
      if Step(d, env).Ok? {
        ConvertedExtendsText(Step(d, env).value, env);
      }
    }
  }

  /**
   * A single shift answers exactly one GL byte: the first uses the shifted
   * buffer and clears it, the next uses GL again; a GR byte leaves it armed.
   */
  lemma SingleShiftOnce(c: Control, x: uint8, y: uint8, z: uint8)
    requires Valid(c) && c.singleShift.Some? && c.singleShift.value != 0
    requires InGL(x) && InGL(y) && InGR(z)
    ensures CurrentCode(c, x) == (Some(c.slots[c.singleShift.value]), c.(singleShift := None))
    ensures CurrentCode(CurrentCode(c, x).1, y).0 == Some(c.slots[c.graphicLeft])
    ensures CurrentCode(c, z) == (Some(c.slots[c.graphicRight]), c)
  {
  }

  /** One successful turn of the loop leaves the rest of the conversion to the new state. */
  lemma ConvertedStep(d: Decoder, d': Decoder, env: Env)
    requires Valid(d.control) && d.input != []
    requires Step(d, env) == Ok(d')
    ensures Converted(d, env) == Converted(d', env)
  {
  }

  /**
   * `ESC ) F` designates graphic set F into G1 and LS1 locks G1 into GL; a GL
   * character is then read in set F.
   */
  lemma DesignateThenShift(c: Control, f: uint8, rest: seq<uint8>, o: Output, split: bool, env: Env)
    requires Valid(c) && c.escSeqCount == 0 && c.singleShift == None
    requires CodeSetG(f).Some? && f != 0x20 && !(0x28 <= f <= 0x2B)
    ensures var c' := c.(slots := c.slots[G1 := CodeSetG(f).value], graphicLeft := G1,
                         escBufferIndex := G1, escDrcs := false, escSeqCount := 0);
            Converted(Decoder(c, [0x1B, 0x29, f, 0x0E] + rest, o, split), env)
              == Converted(Decoder(c', rest, o, split), env)
            && forall x :: InGL(x) ==> CurrentCode(c', x).0 == CodeSetG(f)
  {
    var input := [0x1B, 0x29, f, 0x0E] + rest;
    var d0 := Decoder(c, input, o, split);
    var c1 := c.(escSeqCount := 1);
    var d1 := Decoder(c1, input[1..], o, split);
    ConvertedStep(d0, d1, env);
    var c2 := c1.(escBufferIndex := G1, escDrcs := false, escSeqCount := 2);
    var d2 := Decoder(c2, input[2..], o, split);
    assert input[1..][1..] == input[2..];
    ConvertedStep(d1, d2, env);
    var c3 := c2.(slots := c.slots[G1 := CodeSetG(f).value], escSeqCount := 0);
    var d3 := Decoder(c3, input[3..], o, split);
    assert input[2..][1..] == input[3..];
    ConvertedStep(d2, d3, env);
    var c4 := c3.(graphicLeft := G1);
    assert input[3..][1..] == rest;
    ConvertedStep(d3, Decoder(c4, rest, o, split), env);
    DesignatedSetRead(c4, f);
  }

  lemma DesignatedSetRead(c: Control, f: uint8)
    requires Valid(c) && c.singleShift == None && CodeSetG(f).Some?
    requires c.graphicLeft == G1 && c.slots[G1] == CodeSetG(f).value
    ensures forall x :: InGL(x) ==> CurrentCode(c, x).0 == CodeSetG(f)
  {
  }

  /** After ESC, a byte that starts no escape sequence raises `EscapeSequenceError`. */
  lemma EscapeSequenceRejected(c: Control, x: uint8, rest: seq<uint8>, o: Output, split: bool, env: Env)
    requires Valid(c) && c.escSeqCount == 0
    requires x !in {0x6E, 0x6F, 0x7E, 0x7D, 0x7C, 0x24, 0x28, 0x29, 0x2A, 0x2B}
    ensures Converted(Decoder(c, [0x1B, x] + rest, o, split), env) == Err(EscapeSequenceError(1, x))
  {
    var input := [0x1B, x] + rest;
    var d0 := Decoder(c, input, o, split);
    var d1 := Decoder(c.(escSeqCount := 1), input[1..], o, split);
    ConvertedStep(d0, d1, env);
    assert input[1..][0] == x;
    assert Step(d1, env) == Err(EscapeSequenceError(1, x));
  }

  /** `ESC ( F` with a final byte outside every code-set table raises `DegignationError`. */
  lemma UnknownFinalRejected(c: Control, f: uint8, rest: seq<uint8>, o: Output, split: bool, env: Env)
    requires Valid(c) && c.escSeqCount == 0
    requires !InCodeSetKeys(f) && f != 0x20 && !(0x28 <= f <= 0x2B)
    ensures Converted(Decoder(c, [0x1B, 0x28, f] + rest, o, split), env) == Err(DegignationError(f))
  {
    var input := [0x1B, 0x28, f] + rest;
    var d0 := Decoder(c, input, o, split);
    var c1 := c.(escSeqCount := 1);
    var d1 := Decoder(c1, input[1..], o, split);
    ConvertedStep(d0, d1, env);
    var d2 := Decoder(c1.(escBufferIndex := G0, escDrcs := false, escSeqCount := 2), input[2..], o, split);
    assert input[1..][1..] == input[2..];
    ConvertedStep(d1, d2, env);
    assert input[2..][0] == f;
    assert Step(d2, env) == Err(DegignationError(f));
  }

  /**
   * A DRCS designation (`ESC ( SP F`) looks F up in the DRCS table only: a
   * final byte of a graphic set that is no DRCS set raises `KeyError`.
   */
  lemma DrcsOnlyFromDrcsTable(c: Control, f: uint8, rest: seq<uint8>, o: Output, split: bool, env: Env)
    requires Valid(c) && c.escSeqCount == 0
    requires CodeSetG(f).Some? && CodeSetDrcs(f).None? && f != 0x20
    ensures Converted(Decoder(c, [0x1B, 0x28, 0x20, f] + rest, o, split), env) == Err(KeyError(f))
  {
    var input := [0x1B, 0x28, 0x20, f] + rest;
    var d0 := Decoder(c, input, o, split);
    var c1 := c.(escSeqCount := 1);
    var d1 := Decoder(c1, input[1..], o, split);
    ConvertedStep(d0, d1, env);
    var c2 := c1.(escBufferIndex := G0, escDrcs := false, escSeqCount := 2);
    var d2 := Decoder(c2, input[2..], o, split);
    assert input[1..][1..] == input[2..];
    ConvertedStep(d1, d2, env);
    var d3 := Decoder(c2.(escDrcs := true, escSeqCount := 3), input[3..], o, split);
    assert input[2..][1..] == input[3..];
    ConvertedStep(d2, d3, env);
    assert input[3..][0] == f;
    assert Step(d3, env) == Err(KeyError(f));
  }

  /** Input that ends inside a two-byte character ends the conversion, output as it was. */
  lemma TruncatedCharacter(c: Control, x: uint8, o: Output, split: bool, env: Env)
    requires Valid(c) && c.escSeqCount == 0 && c.singleShift == None
    requires InGL(x) && c.slots[c.graphicLeft].size == 2
    ensures Converted(Decoder(c, [x], o, split), env) == Ok(Decoder(c, [], o, split))
  {
    assert Step(Decoder(c, [x], o, split), env) == Ok(Decoder(c, [], o, split));
  }

  /** A GL byte pair in a two-byte kanji set goes out under the `ESC $ B` tag. */
  lemma KanjiStep(c: Control, x: uint8, y: uint8, rest: seq<uint8>, o: Output, split: bool, env: Env)
    requires Valid(c) && c.escSeqCount == 0 && c.singleShift == None
    requires InGL(x) && c.slots[c.graphicLeft] == CodeSet(Kanji, 2)
    ensures Step(Decoder(c, [x, y] + rest, o, split), env) == Ok(Decoder(c, rest, Appended(o, Zenkaku, [x, y]), split))
  {
    var input := [x, y] + rest;
    assert input[0] == x && input[1..][0] == y && input[1..][1..] == rest;
  }

  /** A GR byte in a one-byte alphanumeric set goes out masked to 7 bits under the `ESC ( B` tag. */
  lemma GrAlphanumericStep(c: Control, x: uint8, rest: seq<uint8>, o: Output, split: bool, env: Env)
    requires Valid(c) && c.escSeqCount == 0
    requires InGR(x) && c.slots[c.graphicRight] == CodeSet(Alphanumeric, 1)
    ensures Step(Decoder(c, [x] + rest, o, split), env) == Ok(Decoder(c, rest, Appended(o, Ascii, [x % 128]), split))
  {
    var input := [x] + rest;
    assert input[0] == x && input[1..] == rest;
  }

  /** The decoder after each turn of the loop on the network name `45 6C 35 7E 1B 7E B7`. */
  function NetworkNameState(k: nat): Decoder
    requires k <= 5
  {
    var o1 := Output([0x1B, 0x24, 0x42, 0x45, 0x6C], Some(Zenkaku), "", "");
    var o2 := Output([0x1B, 0x24, 0x42, 0x45, 0x6C, 0x35, 0x7E], Some(Zenkaku), "", "");
    match k
    case 0 => Initial([0x45, 0x6C, 0x35, 0x7E, 0x1B, 0x7E, 0xB7])
    case 1 => Decoder(Fresh(), [0x35, 0x7E, 0x1B, 0x7E, 0xB7], o1, false)
    case 2 => Decoder(Fresh(), [0x1B, 0x7E, 0xB7], o2, false)
    case 3 => Decoder(Fresh().(escSeqCount := 1), [0x7E, 0xB7], o2, false)
    case 4 => Decoder(Fresh().(graphicRight := G1), [0xB7], o2, false)
    case 5 => Decoder(Fresh().(graphicRight := G1), [],
                      Output([0x1B, 0x24, 0x42, 0x45, 0x6C, 0x35, 0x7E, 0x1B, 0x28, 0x42, 0x37], Some(Ascii), "", ""), false)
  }

  lemma NetworkNameStep1(env: Env)
    ensures Valid(NetworkNameState(0).control) && NetworkNameState(0).input != []
    ensures Step(NetworkNameState(0), env) == Ok(NetworkNameState(1))
  {
    var d0 := NetworkNameState(0);
    var d1 := NetworkNameState(1);
    assert d0.input == [0x45, 0x6C] + d1.input;
    KanjiStep(d0.control, 0x45, 0x6C, d1.input, d0.out, false, env);
    assert Appended(d0.out, Zenkaku, [0x45, 0x6C]).jis == [] + [0x1B, 0x24, 0x42] + [0x45, 0x6C];
    assert d0 == Decoder(d0.control, [0x45, 0x6C] + d1.input, d0.out, false);
    assert Appended(d0.out, Zenkaku, [0x45, 0x6C]) == d1.out;
    assert d1 == Decoder(d0.control, d1.input, Appended(d0.out, Zenkaku, [0x45, 0x6C]), false);
  }

  lemma NetworkNameStep2(env: Env)
    ensures Valid(NetworkNameState(1).control) && NetworkNameState(1).input != []
    ensures Step(NetworkNameState(1), env) == Ok(NetworkNameState(2))
  {
    var d1 := NetworkNameState(1);
    var d2 := NetworkNameState(2);
    assert d1.input == [0x35, 0x7E] + d2.input;
    KanjiStep(d1.control, 0x35, 0x7E, d2.input, d1.out, false, env);
    assert Appended(d1.out, Zenkaku, [0x35, 0x7E]).jis == d1.out.jis + [] + [0x35, 0x7E];
    assert d1 == Decoder(d1.control, [0x35, 0x7E] + d2.input, d1.out, false);
    assert Appended(d1.out, Zenkaku, [0x35, 0x7E]) == d2.out;
    assert d2 == Decoder(d1.control, d2.input, Appended(d1.out, Zenkaku, [0x35, 0x7E]), false);
  }

  lemma NetworkNameStep3(env: Env)
    ensures Valid(NetworkNameState(2).control) && NetworkNameState(2).input != []
    ensures Step(NetworkNameState(2), env) == Ok(NetworkNameState(3))
  {
    assert NetworkNameState(2).input[1..] == NetworkNameState(3).input;
  }

  lemma NetworkNameStep4(env: Env)
    ensures Valid(NetworkNameState(3).control) && NetworkNameState(3).input != []
    ensures Step(NetworkNameState(3), env) == Ok(NetworkNameState(4))
  {
    assert NetworkNameState(3).input[1..] == NetworkNameState(4).input;
  }

  lemma NetworkNameStep5(env: Env)
    ensures Valid(NetworkNameState(4).control) && NetworkNameState(4).input != []
    ensures Step(NetworkNameState(4), env) == Ok(NetworkNameState(5))
  {
    var d4 := NetworkNameState(4);
    assert d4.input == [0xB7] + [];
    GrAlphanumericStep(d4.control, 0xB7, [], d4.out, false, env);
    assert Appended(d4.out, Ascii, [0xB7 % 128]).jis == d4.out.jis + [0x1B, 0x28, 0x42] + [0x37];
    assert d4 == Decoder(d4.control, [0xB7] + [], d4.out, false);
    assert Appended(d4.out, Ascii, [0xB7 % 128]) == NetworkNameState(5).out;
    assert NetworkNameState(5) == Decoder(d4.control, [], Appended(d4.out, Ascii, [0xB7 % 128]), false);
  }

  /**
   * The network name `45 6C 35 7E 1B 7E B7`: two kanji in G0, then LS1R puts
   * the alphanumeric set G1 into GR and `B7` is the digit 7, so the JIS
   * stream is `ESC $ B 45 6C 35 7E ESC ( B 37`.
   */
  lemma NetworkNameExample(env: Env)
    ensures Converted(Initial([0x45, 0x6C, 0x35, 0x7E, 0x1B, 0x7E, 0xB7]), env).Ok?
    ensures Converted(Initial([0x45, 0x6C, 0x35, 0x7E, 0x1B, 0x7E, 0xB7]), env).value.out.jis
      == [0x1B, 0x24, 0x42, 0x45, 0x6C, 0x35, 0x7E, 0x1B, 0x28, 0x42, 0x37]
  {
    NetworkNameStep1(env);
    ConvertedStep(NetworkNameState(0), NetworkNameState(1), env);
    NetworkNameStep2(env);
    ConvertedStep(NetworkNameState(1), NetworkNameState(2), env);
    NetworkNameStep3(env);
    ConvertedStep(NetworkNameState(2), NetworkNameState(3), env);
    NetworkNameStep4(env);
    ConvertedStep(NetworkNameState(3), NetworkNameState(4), env);
    NetworkNameStep5(env);
    ConvertedStep(NetworkNameState(4), NetworkNameState(5), env);
  }
}
