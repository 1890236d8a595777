/**
 * Per-PID section reassembly: `TransportStreamFile.sections` of
 * ariblib/packet.py over an explicit sequence of 188-byte packets, and the
 * `isfull` checks of ariblib/sections.py and the PES class of ariblib/packet.py.
 *
 * The reader keeps one growing byte buffer per tracked PID (a defaultdict, so
 * a PID's entry is created the first time one of its packets is seen). A
 * continuation packet extends a non-empty buffer; a packet that starts a unit
 * first completes the buffer with the bytes before its pointer, drains it
 * (every section whose table id is accepted on the PID is emitted with all
 * the bytes that follow it, and `section_length + 3` bytes are stripped),
 * then restarts the buffer with the bytes after the pointer.
 */
module Reassembly {
  import opened Wrappers
  import opened Bits
  import opened Slices
  import opened Packet
  import opened Dispatch

  /** The reader yields fixed 188-byte packets. */
  const PacketSize: nat := 188

  /** The PES start-code prefix at which draining stops. */
  const PesPrefix: seq<uint8> := [0x00, 0x00, 0x01]

  /** A section handed to the caller: its PID, the class parsing it, and its bytes. */
  datatype Emitted = Emitted(pid: nat, cls: nat, bytes: seq<uint8>)

  /** `((b[1] & 0x0F) << 8) | b[2]`: the 12-bit `section_length`. */
  function SectionLength(b: seq<uint8>): nat
    requires |b| >= 3
  {
    var hi: nat := b[1] % 16;
    hi * 256 + b[2]
  }

  /** `section_length` is the source's expression and the 12-bit field at bit 12. */
  lemma SectionLengthField(b: seq<uint8>)
    requires |b| >= 3
    ensures SectionLength(b) == BitOr(ShiftLeft(BitAnd(b[1], 0x0F), 8), b[2])
    ensures InRange(b, 12, 12) && SectionLength(b) == Uimsbf(b, 12, 12) && SectionLength(b) < 0x1000
  {
    assert Pow2(4) == 16 && Pow2(8) == 256;
    MaskLow(b[1], 4);
    JoinedValue(BitAnd(b[1], 0x0F), b[2], 8);
    UimsbfConcat(b, 12, 4, 12, 16, 8);
    UimsbfOneByte(b, 12, 4, 1, 4, 4, 0);
    UimsbfOneByte(b, 16, 8, 2, 0, 8, 0);
    DivModUnique(b[1] % 16, 1, b[1] % 16, 0);
    DivModUnique(b[2], 256, 0, b[2]);
    DivModUnique(b[2], 1, b[2], 0);
  }

  /**
   * The sections the drain loop emits from buffer `b`: it stops at an empty
   * buffer, `0xFF` stuffing, the PES prefix, or fewer than three bytes (the
   * IndexError the source catches); an accepted table id emits the whole
   * remaining buffer.
   */
  function Drain(b: seq<uint8>, ids: set<nat>): seq<seq<uint8>>
    decreases |b|
  {
    if b == [] || b[0] == 0xFF then []
    else
      var here := if b[0] as nat in ids then [b] else [];
      if Slice(b, 0, 3) == PesPrefix || |b| < 3 then here
      else here + Drain(From(b, SectionLength(b) + 3), ids)
  }

  /** Only sections whose table id is accepted are emitted. */
  lemma {:induction false} DrainAccepted(b: seq<uint8>, ids: set<nat>)
    ensures forall k :: 0 <= k < |Drain(b, ids)| ==> Drain(b, ids)[k] != [] && Drain(b, ids)[k][0] as nat in ids
    decreases |b|
  {
    if !(b == [] || b[0] == 0xFF || Slice(b, 0, 3) == PesPrefix || |b| < 3) {
      DrainAccepted(From(b, SectionLength(b) + 3), ids);
    }
  }

  /** Every emitted section is a suffix of the buffer. */
  lemma {:induction false} DrainSuffixes(b: seq<uint8>, ids: set<nat>)
    ensures forall k :: 0 <= k < |Drain(b, ids)| ==>
      |Drain(b, ids)[k]| <= |b| && Drain(b, ids)[k] == b[|b| - |Drain(b, ids)[k]|..]
    decreases |b|
  {
    if !(b == [] || b[0] == 0xFF || Slice(b, 0, 3) == PesPrefix || |b| < 3) {
      var rest := From(b, SectionLength(b) + 3);
      DrainSuffixes(rest, ids);
      FromIsSuffix(b, SectionLength(b) + 3);
    }
  }

  lemma FromIsSuffix(b: seq<uint8>, n: nat)
    ensures |From(b, n)| <= |b| && From(b, n) == b[|b| - |From(b, n)|..]
    ensures forall j :: 0 <= j <= |From(b, n)| ==> From(b, n)[j..] == b[|b| - |From(b, n)| + j..]
  {
  }

  /** One complete section as the drain loop sees it: the declared length fits exactly. */
  predicate Complete(s: seq<uint8>)
  {
    |s| >= 3 && |s| == SectionLength(s) + 3 && s[0] != 0xFF && Slice(s, 0, 3) != PesPrefix
  }

  /** Draining a complete section followed by more bytes emits it (if accepted) and continues after it. */
  lemma DrainConcat(s: seq<uint8>, rest: seq<uint8>, ids: set<nat>)
    requires Complete(s)
    ensures Drain(s + rest, ids) == (if s[0] as nat in ids then [s + rest] else []) + Drain(rest, ids)
  {
    var b := s + rest;
    assert b[0] == s[0] && b[1] == s[1] && b[2] == s[2];
    assert Slice(b, 0, 3) == Slice(s, 0, 3);
    assert From(b, |s|) == rest;
  }

  /** For complete sections `ss` then stuffing `pad`, each accepted section is emitted with everything after it. */
  function Accepted(ss: seq<seq<uint8>>, pad: seq<uint8>, ids: set<nat>): seq<seq<uint8>>
  {
    if ss == [] then []
    else (if ss[0] != [] && ss[0][0] as nat in ids then [Concat(ss) + pad] else []) + Accepted(ss[1..], pad, ids)
  }

  /** Stuffing, or nothing, emits nothing. */
  lemma DrainStuffing(pad: seq<uint8>, ids: set<nat>)
    requires pad == [] || pad[0] == 0xFF
    ensures Drain(pad, ids) == []
  {
  }

  /**
   * A buffer made of complete sections and then stuffing (or nothing) emits
   * exactly the accepted sections, in order.
   */
  lemma {:induction false} DrainSections(ss: seq<seq<uint8>>, pad: seq<uint8>, ids: set<nat>)
    requires forall k :: 0 <= k < |ss| ==> Complete(ss[k])
    requires pad == [] || pad[0] == 0xFF
    ensures Drain(Concat(ss) + pad, ids) == Accepted(ss, pad, ids)
    decreases |ss|
  {
    if ss == [] {
      assert Concat(ss) + pad == pad;
      DrainStuffing(pad, ids);
    } else {
      TailComplete(ss);
      DrainSections(ss[1..], pad, ids);
      DrainSectionsStep(ss, pad, ids);
    }
  }

  lemma TailComplete(ss: seq<seq<uint8>>)
    requires ss != [] && forall k :: 0 <= k < |ss| ==> Complete(ss[k])
    ensures Complete(ss[0]) && forall k :: 0 <= k < |ss[1..]| ==> Complete(ss[1..][k])
  {
    assert Complete(ss[0]);
  }

  lemma DrainSectionsStep(ss: seq<seq<uint8>>, pad: seq<uint8>, ids: set<nat>)
    requires ss != [] && Complete(ss[0])
    requires Drain(Concat(ss[1..]) + pad, ids) == Accepted(ss[1..], pad, ids)
    ensures Drain(Concat(ss) + pad, ids) == Accepted(ss, pad, ids)
  {
    var b, whole := Concat(ss[1..]) + pad, Concat(ss) + pad;
    var here := if ss[0][0] as nat in ids then [whole] else [];
    assert Drain(whole, ids) == here + Drain(b, ids) by {
      assert whole == ss[0] + b;
      DrainAfter(ss[0], b, whole, ids);
    }
    assert Accepted(ss, pad, ids) == here + Accepted(ss[1..], pad, ids);
  }

  lemma DrainAfter(s: seq<uint8>, b: seq<uint8>, whole: seq<uint8>, ids: set<nat>)
    requires Complete(s) && whole == s + b
    ensures Drain(whole, ids) == (if s[0] as nat in ids then [whole] else []) + Drain(b, ids)
  {
    DrainConcat(s, b, ids);
  }

  /** What the reader remembers between packets. */
  datatype ReaderState = ReaderState(buf: map<nat, seq<uint8>>, order: seq<nat>, lastTableIds: set<nat>)

  /** `order` lists the keys of `buf` once each, in the order they were created. */
  ghost predicate Tracks(s: ReaderState)
  {
    (forall k :: 0 <= k < |s.order| ==> s.order[k] in s.buf) &&
    (forall pid :: pid in s.buf ==> pid in s.order) &&
    (forall i, j :: 0 <= i < j < |s.order| ==> s.order[i] != s.order[j])
  }

  /** Tags each drained section with its PID and the class registered for its table id. */
  function Tag(t: Tables, pid: nat, secs: seq<seq<uint8>>): (r: seq<Emitted>)
    requires Consistent(t)
    requires forall k :: 0 <= k < |secs| ==> secs[k] != [] && secs[k][0] as nat in TableIdsOf(t, pid)
    ensures |r| == |secs|
    ensures forall k :: 0 <= k < |r| ==>
      r[k].pid == pid && r[k].bytes == secs[k] && (pid, secs[k][0] as nat) in t.targetIds &&
      r[k].cls == t.targetIds[(pid, secs[k][0] as nat)]
  {
    seq(|secs|, k requires 0 <= k < |secs| => Emitted(pid, t.targetIds[(pid, secs[k][0] as nat)], secs[k]))
  }

  /** Why `sections` stops early: a pair with no registered class, or an IndexError raised while reading a packet or a length. */
  datatype StreamError = KeyError(pid: nat, tableId: nat) | Raised(pid: nat, error: PacketError)

  datatype StepOutcome = StepOutcome(state: ReaderState, out: Result<seq<Emitted>, PacketError>)

  /** `buf[PID]` on the defaultdict, and `table_ids = table_map[PID]`. */
  function Touch(s: ReaderState, pid: nat, ids: set<nat>): ReaderState
  {
    if pid in s.buf then s.(lastTableIds := ids)
    else ReaderState(s.buf[pid := []], s.order + [pid], ids)
  }

  /**
   * What one packet's payload does to its PID's buffer: the new buffer and
   * the drained sections. A unit start completes a non-empty buffer with the
   * bytes before the pointer (an empty one drops them), drains it and keeps
   * the bytes after the pointer; a continuation is dropped unless a unit is
   * already being collected.
   */
  function Feed(buffer: seq<uint8>, start: bool, prev: seq<uint8>, current: seq<uint8>, ids: set<nat>): (seq<uint8>, seq<seq<uint8>>)
  {
    if start then (current, Drain(if buffer != [] then buffer + prev else buffer, ids))
    else if buffer == [] then ([], [])
    else (buffer + current, [])
  }

  /** Only accepted sections leave `Feed`. */
  lemma FeedAccepted(buffer: seq<uint8>, start: bool, prev: seq<uint8>, current: seq<uint8>, ids: set<nat>)
    ensures var secs := Feed(buffer, start, prev, current, ids).1;
      forall k :: 0 <= k < |secs| ==> secs[k] != [] && secs[k][0] as nat in ids
  {
    if start {
      DrainAccepted(if buffer != [] then buffer + prev else buffer, ids);
    }
  }

  /** One iteration of the packet loop of `sections`. */
  function StepSpec(cs: seq<SectionClass>, s: ReaderState, packet: seq<uint8>): StepOutcome
    requires |packet| == PacketSize
  {
    var t := Build(cs);
    var pid := Pid(packet);
    if pid !in TargetPids(cs) then StepOutcome(s, Ok([]))
    else
      var ids := TableIdsOf(t, pid);
      var s1 := Touch(s, pid, ids);
      match Payload(packet)
      case Err(e) => StepOutcome(s1, Err(e))
      case Ok(parts) =>
        var f := Feed(s1.buf[pid], PayloadUnitStartIndicator(packet) == 1, parts.0, parts.1, ids);
        BuildConsistent(cs);
        FeedAccepted(s1.buf[pid], PayloadUnitStartIndicator(packet) == 1, parts.0, parts.1, ids);
        StepOutcome(s1.(buf := s1.buf[pid := f.0]), Ok(Tag(t, pid, f.1)))
  }

  lemma TouchTracks(s: ReaderState, pid: nat, ids: set<nat>)
    requires Tracks(s)
    ensures Tracks(Touch(s, pid, ids)) && pid in Touch(s, pid, ids).buf
  {
    if pid !in s.buf {
      var order := s.order + [pid];
      assert forall k :: 0 <= k < |s.order| ==> order[k] == s.order[k];
    }
  }

  lemma UpdateTracks(s: ReaderState, pid: nat, b: seq<uint8>)
    requires Tracks(s) && pid in s.buf
    ensures Tracks(s.(buf := s.buf[pid := b]))
  {
  }

  /** The drain loop of a unit start. */
  method DrainBuffer(buffer: seq<uint8>, ids: set<nat>) returns (secs: seq<seq<uint8>>)
    ensures secs == Drain(buffer, ids)
  {
    var b := buffer;
    secs := [];
    while b != [] && b[0] != 0xFF
      invariant Drain(buffer, ids) == secs + Drain(b, ids)
      decreases |b|
    {
      DrainUnfold(b, ids);
      var here: seq<seq<uint8>> := if b[0] as nat in ids then [b] else [];
      if Slice(b, 0, 3) == PesPrefix || |b| < 3 {
        secs := secs + here;
        return;
      }
      var next := From(b, SectionLength(b) + 3);
      Associative(secs, here, Drain(next, ids));
      secs := secs + here;
      b := next;
    }
    DrainStuffing(b, ids);
  }

  lemma Associative(a: seq<seq<uint8>>, b: seq<seq<uint8>>, c: seq<seq<uint8>>)
    ensures a + (b + c) == (a + b) + c
  {
  }

  /** One turn of the drain loop on a buffer that does not start with stuffing. */
  lemma DrainUnfold(b: seq<uint8>, ids: set<nat>)
    requires b != [] && b[0] != 0xFF
    ensures Slice(b, 0, 3) == PesPrefix || |b| < 3 ==> Drain(b, ids) == if b[0] as nat in ids then [b] else []
    ensures !(Slice(b, 0, 3) == PesPrefix || |b| < 3) ==>
      Drain(b, ids) == (if b[0] as nat in ids then [b] else []) + Drain(From(b, SectionLength(b) + 3), ids)
  {
  }

  /** `PES_packet_length`: the 16 bits of bytes 4 and 5. */
  function PesPacketLength(b: seq<uint8>): nat
    requires |b| >= 6
  {
    var hi: nat := b[4];
    hi * 256 + b[5]
  }

  /** The declared length a class reads; the schema read raises IndexError past the end of the buffer. */
  function DeclaredLength(kind: LengthKind, b: seq<uint8>): Result<nat, PacketError>
  {
    match kind
    case PsiSection => if |b| < 3 then Err(IndexError(if |b| < 1 then 1 else |b|)) else Ok(SectionLength(b))
    case PesPacket => if |b| < 6 then Err(IndexError(if |b| < 4 then 4 else |b|)) else Ok(PesPacketLength(b))
  }

  /** Bytes before the counted part: three for a section, six for a PES packet. */
  function HeaderLength(kind: LengthKind): nat
  {
    match kind
    case PsiSection => 3
    case PesPacket => 6
  }

  /** `isfull` as written: `length <= len(self) + 3`, for both kinds. */
  function IsFullAsWritten(kind: LengthKind, b: seq<uint8>): Result<bool, PacketError>
  {
    match DeclaredLength(kind, b)
    case Err(e) => Err(e)
    case Ok(n) => Ok(n <= |b| + 3)
  }

  /** `isfull` as its documentation intends: the buffer holds at least the declared unit. */
  function IsFull(kind: LengthKind, b: seq<uint8>): Result<bool, PacketError>
  {
    match DeclaredLength(kind, b)
    case Err(e) => Err(e)
    case Ok(n) => Ok(n + HeaderLength(kind) <= |b|)
  }

  /** The written check accepts a five-byte buffer whose section needs 11 bytes. */
  lemma IsFullAsWrittenAcceptsPartialSection(b: seq<uint8>)
    requires b == [0x00, 0xB0, 0x08, 0x00, 0x00]
    ensures DeclaredLength(PsiSection, b) == Ok(8)
    ensures IsFullAsWritten(PsiSection, b) == Ok(true)
    ensures IsFull(PsiSection, b) == Ok(false)
  {
  }

  /** The written check accepts a six-byte PES buffer whose packet needs 14 bytes. */
  lemma IsFullAsWrittenAcceptsPartialPes(b: seq<uint8>)
    requires b == [0x00, 0x00, 0x01, 0xBD, 0x00, 0x08]
    ensures DeclaredLength(PesPacket, b) == Ok(8)
    ensures IsFullAsWritten(PesPacket, b) == Ok(true)
    ensures IsFull(PesPacket, b) == Ok(false)
  {
  }

  /** The intended check holds exactly when the buffer starts with a section of its declared length. */
  lemma IsFullMeansComplete(b: seq<uint8>)
    requires |b| >= 3
    ensures IsFull(PsiSection, b) == Ok(true) <==>
      exists s, rest :: b == s + rest && |s| >= 3 && |s| == SectionLength(s) + 3
  {
    if IsFull(PsiSection, b) == Ok(true) {
      var n := SectionLength(b) + 3;
      var s, rest := b[..n], b[n..];
      assert s[1] == b[1] && s[2] == b[2];
      assert b == s + rest;
    }
    if exists s, rest :: b == s + rest && |s| >= 3 && |s| == SectionLength(s) + 3 {
      var s, rest :| b == s + rest && |s| >= 3 && |s| == SectionLength(s) + 3;
      assert s[1] == b[1] && s[2] == b[2];
    }
  }

  datatype FlushOutcome = FlushOutcome(out: seq<Emitted>, error: Option<StreamError>)

  function Prepend(e: seq<Emitted>, f: FlushOutcome): FlushOutcome
  {
    FlushOutcome(e + f.out, f.error)
  }

  /** The check the flush applies: `isfull` as written, or as intended when `intended` holds. */
  function FullCheck(intended: bool, kind: LengthKind, b: seq<uint8>): Result<bool, PacketError>
  {
    if intended then IsFull(kind, b) else IsFullAsWritten(kind, b)
  }

  /** Whatever the intended check accepts, the written one accepts too, and both raise alike. */
  lemma IsFullWeakerThanWritten(kind: LengthKind, b: seq<uint8>)
    ensures IsFull(kind, b).Err? <==> IsFullAsWritten(kind, b).Err?
    ensures IsFull(kind, b).Err? ==> IsFull(kind, b) == IsFullAsWritten(kind, b)
    ensures IsFull(kind, b) == Ok(true) ==> IsFullAsWritten(kind, b) == Ok(true)
  {
  }

  /**
   * One leftover buffer at end of stream: it is a candidate only if its first
   * byte is in the table ids of the last processed PID; its class comes from
   * the pair table (KeyError when missing) and it is emitted when it passes
   * the check. The reader of the source flushes with `intended` false.
   */
  function FlushEntry(cs: seq<SectionClass>, pid: nat, b: seq<uint8>, lastIds: set<nat>, intended: bool): Result<seq<Emitted>, StreamError>
  {
    if b == [] || b[0] as nat !in lastIds then Ok([])
    else
      var key := (pid, b[0] as nat);
      if key !in Build(cs).targetIds then Err(KeyError(pid, b[0] as nat))
      else
        BuildLast(cs, key);
        var cls := Build(cs).targetIds[key];
        match FullCheck(intended, cs[cls].kind, b)
        case Err(e) => Err(Raised(pid, e))
        case Ok(full) => Ok(if full then [Emitted(pid, cls, b)] else [])
  }

  /** The end-of-stream loop over the buffers from position `k` of the creation order on. */
  function FlushFrom(cs: seq<SectionClass>, s: ReaderState, k: nat, intended: bool): FlushOutcome
    requires Tracks(s) && k <= |s.order|
    decreases |s.order| - k
  {
    if k == |s.order| then FlushOutcome([], None)
    else
      match FlushEntry(cs, s.order[k], s.buf[s.order[k]], s.lastTableIds, intended)
      case Err(e) => FlushOutcome([], Some(e))
      case Ok(emitted) => Prepend(emitted, FlushFrom(cs, s, k + 1, intended))
  }

  lemma FlushFromStep(cs: seq<SectionClass>, s: ReaderState, k: nat, intended: bool)
    requires Tracks(s) && k < |s.order|
    ensures FlushFrom(cs, s, k, intended) == match FlushEntry(cs, s.order[k], s.buf[s.order[k]], s.lastTableIds, intended)
      case Err(e) => FlushOutcome([], Some(e))
      case Ok(emitted) => Prepend(emitted, FlushFrom(cs, s, k + 1, intended))
  {
  }

  /** The reader of one `sections(*Sections)` call. */
  class SectionReader {
    const classes: seq<SectionClass>
    const tables: Tables
    const targetPids: set<nat>
    var buf: map<nat, seq<uint8>>
    var order: seq<nat>
    var lastTableIds: set<nat>

    function State(): ReaderState
      reads this
    {
      ReaderState(buf, order, lastTableIds)
    }

    ghost predicate Valid()
      reads this
    {
      tables == Build(classes) && targetPids == TargetPids(classes) && Tracks(State())
    }

    constructor(cs: seq<SectionClass>)
      ensures Valid() && classes == cs && State() == ReaderState(map[], [], {})
    {
      var t := BuildTables(cs);
      classes := cs;
      tables := t;
      targetPids := TargetPids(cs);
      buf := map[];
      order := [];
      lastTableIds := {};
    }

    /** Feeds one packet and returns the sections it completes. */
    method Step(packet: seq<uint8>) returns (out: Result<seq<Emitted>, PacketError>)
      requires Valid() && |packet| == PacketSize
      modifies this
      ensures Valid()
      ensures StepOutcome(State(), out) == StepSpec(classes, old(State()), packet)
    {
      var pid := Pid(packet);
      if pid !in targetPids {
        return Ok([]);
      }
      var ids := TableIdsOf(tables, pid);
      TouchTracks(State(), pid, ids);
      if pid !in buf {
        buf := buf[pid := []];
        order := order + [pid];
      }
      lastTableIds := ids;
      ghost var s1 := State();
      var buffer := buf[pid];
      var parts := Payload(packet);
      if parts.Err? {
        return Err(parts.error);
      }
      var prev, current := parts.value.0, parts.value.1;
      var secs: seq<seq<uint8>> := [];
      if PayloadUnitStartIndicator(packet) == 1 {
        if buffer != [] {
          buffer := buffer + prev;
        }
        secs := DrainBuffer(buffer, ids);
        buffer := current;
      } else if buffer != [] {
        buffer := buffer + current;
      }
      assert (buffer, secs) == Feed(s1.buf[pid], PayloadUnitStartIndicator(packet) == 1, prev, current, ids);
      UpdateTracks(s1, pid, buffer);
      buf := buf[pid := buffer];
      BuildConsistent(classes);
      FeedAccepted(s1.buf[pid], PayloadUnitStartIndicator(packet) == 1, prev, current, ids);
      out := Ok(Tag(tables, pid, secs));
    }

    /** The end-of-stream loop over the leftover buffers, in creation order. */
    method Flush() returns (out: seq<Emitted>, error: Option<StreamError>)
      requires Valid()
      ensures FlushOutcome(out, error) == FlushFrom(classes, State(), 0, false)
    {
      ghost var s := State();
      out := [];
      error := None;
      var k := 0;
      while k < |order|
        invariant 0 <= k <= |order|
        invariant FlushFrom(classes, s, 0, false) == Prepend(out, FlushFrom(classes, s, k, false))
      {
        var pid := order[k];
        var b := buf[pid];
        FlushFromStep(classes, s, k, false);
        if b != [] && b[0] as nat in lastTableIds {
          var key := (pid, b[0] as nat);
          if key !in tables.targetIds {
            return out, Some(KeyError(pid, b[0] as nat));
          }
          BuildLast(classes, key);
          var cls := tables.targetIds[key];
          var full := IsFullAsWritten(classes[cls].kind, b);
          if full.Err? {
            return out, Some(Raised(pid, full.error));
          }
          if full.value {
            PrependTwice(out, [Emitted(pid, cls, b)], FlushFrom(classes, s, k + 1, false));
            out := out + [Emitted(pid, cls, b)];
          }
        }
        k := k + 1;
      }
    }
  }

  lemma StepKeepsTracks(cs: seq<SectionClass>, s: ReaderState, packet: seq<uint8>)
    requires Tracks(s) && |packet| == PacketSize
    ensures Tracks(StepSpec(cs, s, packet).state)
  {
    var pid := Pid(packet);
    if pid in TargetPids(cs) {
      var ids := TableIdsOf(Build(cs), pid);
      TouchTracks(s, pid, ids);
      var s1 := Touch(s, pid, ids);
      if Payload(packet).Ok? {
        var parts := Payload(packet).value;
        UpdateTracks(s1, pid, Feed(s1.buf[pid], PayloadUnitStartIndicator(packet) == 1, parts.0, parts.1, ids).0);
      }
    }
  }

  /** The whole of `sections` over a packet sequence: stop at the first packet that raises, else flush. */
  function RunFrom(cs: seq<SectionClass>, s: ReaderState, packets: seq<seq<uint8>>): FlushOutcome
    requires Tracks(s)
    requires forall k :: 0 <= k < |packets| ==> |packets[k]| == PacketSize
    decreases |packets|
  {
    if packets == [] then FlushFrom(cs, s, 0, false)
    else
      StepKeepsTracks(cs, s, packets[0]);
      var o := StepSpec(cs, s, packets[0]);
      match o.out
      case Err(e) => FlushOutcome([], Some(Raised(Pid(packets[0]), e)))
      case Ok(emitted) => Prepend(emitted, RunFrom(cs, o.state, packets[1..]))
  }

  lemma RunFromStep(cs: seq<SectionClass>, s: ReaderState, packets: seq<seq<uint8>>)
    requires Tracks(s) && packets != []
    requires forall k :: 0 <= k < |packets| ==> |packets[k]| == PacketSize
    ensures Tracks(StepSpec(cs, s, packets[0]).state)
    ensures RunFrom(cs, s, packets) == match StepSpec(cs, s, packets[0]).out
      case Err(e) => FlushOutcome([], Some(Raised(Pid(packets[0]), e)))
      case Ok(emitted) => Prepend(emitted, RunFrom(cs, StepSpec(cs, s, packets[0]).state, packets[1..]))
  {
    StepKeepsTracks(cs, s, packets[0]);
  }

  lemma PrependTwice(a: seq<Emitted>, b: seq<Emitted>, f: FlushOutcome)
    ensures Prepend(a, Prepend(b, f)) == Prepend(a + b, f)
  {
    assert a + (b + f.out) == (a + b) + f.out;
  }

  /** `sections(*Sections)` over an explicit packet sequence. */
  method Sections(cs: seq<SectionClass>, packets: seq<seq<uint8>>) returns (out: seq<Emitted>, error: Option<StreamError>)
    requires forall k :: 0 <= k < |packets| ==> |packets[k]| == PacketSize
    ensures FlushOutcome(out, error) == RunFrom(cs, ReaderState(map[], [], {}), packets)
  {
    var reader := new SectionReader(cs);
    out := [];
    var i := 0;
    while i < |packets|
      invariant 0 <= i <= |packets| && reader.Valid() && reader.classes == cs
      invariant RunFrom(cs, ReaderState(map[], [], {}), packets) == Prepend(out, RunFrom(cs, reader.State(), packets[i..]))
    {
      ghost var before := reader.State();
      var r := reader.Step(packets[i]);
      RunFromStep(cs, before, packets[i..]);
      if r.Err? {
        return out, Some(Raised(Pid(packets[i]), r.error));
      }
      assert packets[i..][1..] == packets[i + 1..];
      PrependTwice(out, r.value, RunFrom(cs, reader.State(), packets[i + 1..]));
      out := out + r.value;
      i := i + 1;
    }
    assert packets[i..] == [];
    var rest, err := reader.Flush();
    out := out + rest;
    error := err;
  }

  /** An emitted section is parsed by a class that declares its PID and its table id. */
  predicate Registered(cs: seq<SectionClass>, e: Emitted)
  {
    e.bytes != [] && e.cls < |cs| && Declares(cs, e.cls, (e.pid, e.bytes[0] as nat))
  }

  /** A packet on a PID no class asks for changes nothing and emits nothing. */
  lemma StepUntracked(cs: seq<SectionClass>, s: ReaderState, packet: seq<uint8>)
    requires |packet| == PacketSize && Pid(packet) !in TargetPids(cs)
    ensures StepSpec(cs, s, packet) == StepOutcome(s, Ok([]))
  {
  }

  /** Only the packet's own buffer changes, and a new PID is appended to the creation order. */
  lemma StepOthersUnchanged(cs: seq<SectionClass>, s: ReaderState, packet: seq<uint8>)
    requires |packet| == PacketSize
    ensures var s2 := StepSpec(cs, s, packet).state;
      (forall q :: q != Pid(packet) ==> (q in s2.buf <==> q in s.buf)) &&
      (forall q :: q != Pid(packet) && q in s.buf ==> s2.buf[q] == s.buf[q]) &&
      (s2.order == s.order || (Pid(packet) !in s.buf && s2.order == s.order + [Pid(packet)]))
  {
  }

  /** A continuation packet extends a unit being collected and is dropped otherwise; it never emits. */
  lemma StepContinuation(cs: seq<SectionClass>, s: ReaderState, packet: seq<uint8>)
    requires |packet| == PacketSize && Pid(packet) in TargetPids(cs)
    requires PayloadUnitStartIndicator(packet) == 0 && Payload(packet).Ok?
    ensures var o := StepSpec(cs, s, packet);
      var pid := Pid(packet);
      o.out == Ok([]) && pid in o.state.buf &&
      o.state.buf[pid] == if pid in s.buf && s.buf[pid] != [] then s.buf[pid] + Payload(packet).value.1 else []
  {
  }

  /** A packet whose payload cannot be read raises, after its PID's buffer has been created. */
  lemma StepRaises(cs: seq<SectionClass>, s: ReaderState, packet: seq<uint8>)
    requires |packet| == PacketSize && Pid(packet) in TargetPids(cs) && Payload(packet).Err?
    ensures StepSpec(cs, s, packet).out == Err(Payload(packet).error)
    ensures Pid(packet) in StepSpec(cs, s, packet).state.buf
  {
  }

  /**
   * A unit start on a buffer that, completed with the bytes before the
   * pointer, holds whole sections and then stuffing emits exactly the
   * accepted ones, each with the bytes that follow it, and restarts the
   * buffer with the bytes after the pointer.
   */
  lemma StepUnitStart(cs: seq<SectionClass>, s: ReaderState, packet: seq<uint8>, ss: seq<seq<uint8>>, pad: seq<uint8>)
    requires |packet| == PacketSize && Pid(packet) in TargetPids(cs)
    requires PayloadUnitStartIndicator(packet) == 1 && Payload(packet).Ok?
    requires Pid(packet) in s.buf && s.buf[Pid(packet)] != []
    requires s.buf[Pid(packet)] + Payload(packet).value.0 == Concat(ss) + pad
    requires forall k :: 0 <= k < |ss| ==> Complete(ss[k])
    requires pad == [] || pad[0] == 0xFF
    ensures var o := StepSpec(cs, s, packet);
      var pid := Pid(packet);
      var acc := Accepted(ss, pad, TableIdsOf(Build(cs), pid));
      o.state.buf[pid] == Payload(packet).value.1 &&
      o.out.Ok? && |o.out.value| == |acc| &&
      forall k :: 0 <= k < |acc| ==> o.out.value[k].pid == pid && o.out.value[k].bytes == acc[k]
  {
    DrainSections(ss, pad, TableIdsOf(Build(cs), Pid(packet)));
  }

  /** Every section a step emits is tagged with its PID and a class that declares the pair. */
  lemma StepEmitsRegistered(cs: seq<SectionClass>, s: ReaderState, packet: seq<uint8>)
    requires |packet| == PacketSize
    ensures var o := StepSpec(cs, s, packet);
      o.out.Ok? ==> forall k :: 0 <= k < |o.out.value| ==>
        o.out.value[k].pid == Pid(packet) && Registered(cs, o.out.value[k])
  {
    var o := StepSpec(cs, s, packet);
    var pid := Pid(packet);
    if pid in TargetPids(cs) && Payload(packet).Ok? {
      var ids := TableIdsOf(Build(cs), pid);
      var s1 := Touch(s, pid, ids);
      var parts := Payload(packet).value;
      var start := PayloadUnitStartIndicator(packet) == 1;
      var secs := Feed(s1.buf[pid], start, parts.0, parts.1, ids).1;
      FeedAccepted(s1.buf[pid], start, parts.0, parts.1, ids);
      BuildConsistent(cs);
      assert o.out == Ok(Tag(Build(cs), pid, secs));
      forall k | 0 <= k < |o.out.value|
        ensures o.out.value[k].pid == pid && Registered(cs, o.out.value[k])
      {
        assert o.out.value[k].bytes == secs[k];
        BuildLast(cs, (pid, secs[k][0] as nat));
      }
    }
  }

  /** Every section the flush emits is registered, accepted by the last PID's table ids, and passes the flush's check. */
  lemma {:induction false} FlushEmitsRegistered(cs: seq<SectionClass>, s: ReaderState, k: nat, intended: bool)
    requires Tracks(s) && k <= |s.order|
    ensures var f := FlushFrom(cs, s, k, intended);
      forall j :: 0 <= j < |f.out| ==>
        Registered(cs, f.out[j]) && f.out[j].bytes[0] as nat in s.lastTableIds &&
        FullCheck(intended, cs[f.out[j].cls].kind, f.out[j].bytes) == Ok(true)
    decreases |s.order| - k
  {
    if k < |s.order| {
      FlushEmitsRegistered(cs, s, k + 1, intended);
      FlushFromStep(cs, s, k, intended);
      var pid := s.order[k];
      var b := s.buf[pid];
      var entry := FlushEntry(cs, pid, b, s.lastTableIds, intended);
      if b != [] && b[0] as nat in s.lastTableIds && (pid, b[0] as nat) in Build(cs).targetIds {
        BuildLast(cs, (pid, b[0] as nat));
      }
      if entry.Ok? {
        var f, rest := FlushFrom(cs, s, k, intended), FlushFrom(cs, s, k + 1, intended);
        assert f.out == entry.value + rest.out;
        forall j | 0 <= j < |f.out|
          ensures Registered(cs, f.out[j]) && f.out[j].bytes[0] as nat in s.lastTableIds &&
            FullCheck(intended, cs[f.out[j].cls].kind, f.out[j].bytes) == Ok(true)
        {
          if j >= |entry.value| {
            assert f.out[j] == rest.out[j - |entry.value|];
          }
        }
      }
    }
  }

  /** The intended flush emits only whole sections: every flushed PSI section holds its declared length. */
  lemma IntendedFlushEmitsComplete(cs: seq<SectionClass>, s: ReaderState)
    requires Tracks(s)
    ensures var f := FlushFrom(cs, s, 0, true);
      forall j :: 0 <= j < |f.out| ==>
        f.out[j].cls < |cs| && (cs[f.out[j].cls].kind == PsiSection ==> |f.out[j].bytes| >= 3 && SectionLength(f.out[j].bytes) + 3 <= |f.out[j].bytes|)
  {
    FlushEmitsRegistered(cs, s, 0, true);
  }

  /**
   * The written flush raises exactly when the intended one does and emits
   * every section the intended one emits, in the same order.
   */
  lemma {:induction false} FlushWrittenCoversIntended(cs: seq<SectionClass>, s: ReaderState, k: nat)
    requires Tracks(s) && k <= |s.order|
    ensures FlushFrom(cs, s, k, false).error == FlushFrom(cs, s, k, true).error
    ensures forall e :: e in FlushFrom(cs, s, k, true).out ==> e in FlushFrom(cs, s, k, false).out
    decreases |s.order| - k
  {
    if k < |s.order| {
      FlushWrittenCoversIntended(cs, s, k + 1);
      FlushFromStep(cs, s, k, false);
      FlushFromStep(cs, s, k, true);
      var pid := s.order[k];
      var b := s.buf[pid];
      if b != [] && b[0] as nat in s.lastTableIds && (pid, b[0] as nat) in Build(cs).targetIds {
        BuildLast(cs, (pid, b[0] as nat));
        IsFullWeakerThanWritten(cs[Build(cs).targetIds[(pid, b[0] as nat)]].kind, b);
      }
    }
  }

  /**
   * At end of stream, a five-byte PAT buffer on PID 0 whose section declares
   * eight more bytes is yielded by the written flush and not by the intended one.
   */
  lemma FlushYieldsPartialSection(cs: seq<SectionClass>, s: ReaderState, b: seq<uint8>)
    requires b == [0x00, 0xB0, 0x08, 0x00, 0x00]
    requires s == ReaderState(map[0 := b], [0], {0})
    requires (0, 0) in Build(cs).targetIds && Build(cs).targetIds[(0, 0)] < |cs|
    requires cs[Build(cs).targetIds[(0, 0)]].kind == PsiSection
    ensures FlushFrom(cs, s, 0, false) == FlushOutcome([Emitted(0, Build(cs).targetIds[(0, 0)], b)], None)
    ensures FlushFrom(cs, s, 0, true) == FlushOutcome([], None)
  {
    IsFullAsWrittenAcceptsPartialSection(b);
    FlushFromStep(cs, s, 0, false);
    FlushFromStep(cs, s, 0, true);
  }

  /** A continuation packet of PID `pid` whose payload can be read. */
  predicate Continues(pid: nat, c: seq<uint8>)
  {
    |c| == PacketSize && Pid(c) == pid && PayloadUnitStartIndicator(c) == 0 && Payload(c).Ok?
  }

  /** The payload bytes a run of continuation packets carries. */
  function Carried(pid: nat, conts: seq<seq<uint8>>): seq<uint8>
    requires forall k :: 0 <= k < |conts| ==> Continues(pid, conts[k])
  {
    if conts == [] then []
    else
      assert Continues(pid, conts[0]);
      Payload(conts[0]).value.1 + Carried(pid, conts[1..])
  }

  /** A packet that emits nothing hands the rest of the run to the state it leaves. */
  lemma RunFromQuiet(cs: seq<SectionClass>, s: ReaderState, c: seq<uint8>, rest: seq<seq<uint8>>, s1: ReaderState)
    requires Tracks(s) && |c| == PacketSize && forall k :: 0 <= k < |rest| ==> |rest[k]| == PacketSize
    requires StepSpec(cs, s, c) == StepOutcome(s1, Ok([]))
    ensures Tracks(s1) && forall k :: 0 <= k < |[c] + rest| ==> |([c] + rest)[k]| == PacketSize
    ensures RunFrom(cs, s, [c] + rest) == RunFrom(cs, s1, rest)
  {
    var all := [c] + rest;
    assert forall k :: 0 <= k < |all| ==> |all[k]| == PacketSize by {
      forall k | 0 <= k < |all| ensures |all[k]| == PacketSize {
        if k > 0 { assert all[k] == rest[k - 1]; }
      }
    }
    RunFromStep(cs, s, all);
    assert all[0] == c && all[1..] == rest;
  }

  /** A continuation packet on a PID already collecting a unit: the state after it, whole. */
  lemma StepContinues(cs: seq<SectionClass>, s: ReaderState, pid: nat, c: seq<uint8>)
    requires Continues(pid, c) && pid in TargetPids(cs) && pid in s.buf && s.buf[pid] != []
    requires s.lastTableIds == TableIdsOf(Build(cs), pid)
    ensures StepSpec(cs, s, c) == StepOutcome(s.(buf := s.buf[pid := s.buf[pid] + Payload(c).value.1]), Ok([]))
  {
  }

  /** Continuation packets append their payloads to a unit being collected and emit nothing. */
  lemma {:induction false} RunContinuations(cs: seq<SectionClass>, s: ReaderState, pid: nat, conts: seq<seq<uint8>>, rest: seq<seq<uint8>>)
    requires Tracks(s) && pid in TargetPids(cs) && pid in s.buf && s.buf[pid] != []
    requires s.lastTableIds == TableIdsOf(Build(cs), pid)
    requires forall k :: 0 <= k < |conts| ==> Continues(pid, conts[k])
    requires forall k :: 0 <= k < |rest| ==> |rest[k]| == PacketSize
    ensures forall k :: 0 <= k < |conts + rest| ==> |(conts + rest)[k]| == PacketSize
    ensures Tracks(s.(buf := s.buf[pid := s.buf[pid] + Carried(pid, conts)]))
    ensures RunFrom(cs, s, conts + rest) == RunFrom(cs, s.(buf := s.buf[pid := s.buf[pid] + Carried(pid, conts)]), rest)
    decreases |conts|
  {
    if conts == [] {
      AppendTwice(s, pid, [], []);
      assert conts + rest == rest;
    } else {
      var c := conts[0];
      StepContinues(cs, s, pid, c);
      var s1 := s.(buf := s.buf[pid := s.buf[pid] + Payload(c).value.1]);
      UpdateTracks(s, pid, s1.buf[pid]);
      RunContinuations(cs, s1, pid, conts[1..], rest);
      RunFromQuiet(cs, s, c, conts[1..] + rest, s1);
      ConsAppend(conts, rest);
      AppendTwice(s, pid, Payload(c).value.1, Carried(pid, conts[1..]));
    }
  }

  /** Appending to a PID's buffer in two steps is appending once; appending nothing keeps the state. */
  lemma AppendTwice(s: ReaderState, pid: nat, h: seq<uint8>, more: seq<uint8>)
    requires pid in s.buf
    ensures var s1 := s.(buf := s.buf[pid := s.buf[pid] + h]);
      s1.(buf := s1.buf[pid := s1.buf[pid] + more]) == s.(buf := s.buf[pid := s.buf[pid] + (h + more)])
    ensures s.(buf := s.buf[pid := s.buf[pid] + []]) == s
  {
    var s1 := s.(buf := s.buf[pid := s.buf[pid] + h]);
    assert s1.buf[pid] + more == s.buf[pid] + (h + more);
    assert s.buf[pid] + [] == s.buf[pid];
  }

  lemma ConsAppend<T>(xs: seq<T>, ys: seq<T>)
    requires xs != []
    ensures xs + ys == [xs[0]] + (xs[1..] + ys)
  {
    assert xs == [xs[0]] + xs[1..];
  }

  /** The reader after a section has been completed on `pid` and the next unit started with `b`. */
  function Reassembled(cs: seq<SectionClass>, s: ReaderState, pid: nat, b: seq<uint8>): ReaderState
  {
    var s1 := Touch(s, pid, TableIdsOf(Build(cs), pid));
    s1.(buf := s1.buf[pid := b])
  }

  /** A unit start on an empty or new buffer emits nothing and keeps the bytes after the pointer. */
  lemma StepStartsUnit(cs: seq<SectionClass>, s: ReaderState, first: seq<uint8>)
    requires |first| == PacketSize && Pid(first) in TargetPids(cs)
    requires Pid(first) !in s.buf || s.buf[Pid(first)] == []
    requires PayloadUnitStartIndicator(first) == 1 && Payload(first).Ok?
    ensures StepSpec(cs, s, first) == StepOutcome(Reassembled(cs, s, Pid(first), Payload(first).value.1), Ok([]))
  {
  }

  /**
   * A unit start whose bytes before the pointer complete a buffer of one
   * accepted section and stuffing emits it, and keeps the bytes after the pointer.
   */
  lemma StepCompletes(cs: seq<SectionClass>, s: ReaderState, next: seq<uint8>, sec: seq<uint8>, pad: seq<uint8>)
    requires |next| == PacketSize && Pid(next) in TargetPids(cs) && PayloadUnitStartIndicator(next) == 1 && Payload(next).Ok?
    requires Pid(next) in s.buf && s.buf[Pid(next)] != [] && s.lastTableIds == TableIdsOf(Build(cs), Pid(next))
    requires Complete(sec) && (pad == [] || pad[0] == 0xFF)
    requires s.buf[Pid(next)] + Payload(next).value.0 == sec + pad
    requires sec[0] as nat in TableIdsOf(Build(cs), Pid(next))
    ensures (Pid(next), sec[0] as nat) in Build(cs).targetIds
    ensures StepSpec(cs, s, next) == StepOutcome(s.(buf := s.buf[Pid(next) := Payload(next).value.1]),
      Ok([Emitted(Pid(next), Build(cs).targetIds[(Pid(next), sec[0] as nat)], sec + pad)]))
  {
    var pid := Pid(next);
    var ids := TableIdsOf(Build(cs), pid);
    BuildTableMap(cs, pid, sec[0] as nat);
    assert Concat([sec]) == sec;
    DrainSections([sec], pad, ids);
    assert Accepted([sec], pad, ids) == [sec + pad];
    assert Drain(s.buf[pid] + Payload(next).value.0, ids) == [sec + pad];
    assert Touch(s, pid, ids) == s;
    BuildConsistent(cs);
    var tagged := Tag(Build(cs), pid, [sec + pad]);
    assert tagged == [Emitted(pid, Build(cs).targetIds[(pid, sec[0] as nat)], sec + pad)] by {
      assert |tagged| == 1 && (sec + pad)[0] == sec[0];
    }
  }

  /** A packet that emits `e` puts `e` before what the rest of the run yields from the state it leaves. */
  lemma RunFromEmits(cs: seq<SectionClass>, s: ReaderState, c: seq<uint8>, rest: seq<seq<uint8>>, s1: ReaderState, e: seq<Emitted>)
    requires Tracks(s) && |c| == PacketSize && forall k :: 0 <= k < |rest| ==> |rest[k]| == PacketSize
    requires StepSpec(cs, s, c) == StepOutcome(s1, Ok(e))
    ensures Tracks(s1) && forall k :: 0 <= k < |[c] + rest| ==> |([c] + rest)[k]| == PacketSize
    ensures RunFrom(cs, s, [c] + rest) == Prepend(e, RunFrom(cs, s1, rest))
  {
    var all := [c] + rest;
    assert forall k :: 0 <= k < |all| ==> |all[k]| == PacketSize by {
      forall k | 0 <= k < |all| ensures |all[k]| == PacketSize {
        if k > 0 { assert all[k] == rest[k - 1]; }
      }
    }
    RunFromStep(cs, s, all);
    assert all[0] == c && all[1..] == rest;
  }

  /** Restarting the buffer forgets what was collected since the unit began. */
  lemma RestartForgets(cs: seq<SectionClass>, s: ReaderState, pid: nat, a: seq<uint8>, cur: seq<uint8>)
    ensures var s2 := Reassembled(cs, s, pid, a);
      s2.(buf := s2.buf[pid := cur]) == Reassembled(cs, s, pid, cur)
  {
    var s1 := Touch(s, pid, TableIdsOf(Build(cs), pid));
    assert s1.buf[pid := a][pid := cur] == s1.buf[pid := cur];
  }

  /**
   * The second half of SectionAcrossPackets: once a unit has begun on `pid`,
   * the continuations and the next unit start complete and emit the section.
   */
  lemma SectionCompletes(cs: seq<SectionClass>, s: ReaderState, pid: nat, conts: seq<seq<uint8>>,
                         next: seq<uint8>, more: seq<seq<uint8>>, sec: seq<uint8>, pad: seq<uint8>)
    requires Tracks(s) && pid in TargetPids(cs) && pid in s.buf && s.buf[pid] != []
    requires s.lastTableIds == TableIdsOf(Build(cs), pid)
    requires forall k :: 0 <= k < |conts| ==> Continues(pid, conts[k])
    requires |next| == PacketSize && Pid(next) == pid && PayloadUnitStartIndicator(next) == 1 && Payload(next).Ok?
    requires forall k :: 0 <= k < |more| ==> |more[k]| == PacketSize
    requires Complete(sec) && (pad == [] || pad[0] == 0xFF)
    requires s.buf[pid] + Carried(pid, conts) + Payload(next).value.0 == sec + pad
    requires sec[0] as nat in TableIdsOf(Build(cs), pid)
    ensures (pid, sec[0] as nat) in Build(cs).targetIds
    ensures forall k :: 0 <= k < |conts + ([next] + more)| ==> |(conts + ([next] + more))[k]| == PacketSize
    ensures Tracks(s.(buf := s.buf[pid := Payload(next).value.1]))
    ensures RunFrom(cs, s, conts + ([next] + more)) ==
      Prepend([Emitted(pid, Build(cs).targetIds[(pid, sec[0] as nat)], sec + pad)],
              RunFrom(cs, s.(buf := s.buf[pid := Payload(next).value.1]), more))
  {
    var cur := Payload(next).value.1;
    RunContinuations(cs, s, pid, conts, [next] + more);
    var s3 := s.(buf := s.buf[pid := s.buf[pid] + Carried(pid, conts)]);
    StepCompletes(cs, s3, next, sec, pad);
    RunFromEmits(cs, s3, next, more, s3.(buf := s3.buf[pid := cur]), [Emitted(pid, Build(cs).targetIds[(pid, sec[0] as nat)], sec + pad)]);
    assert s3.buf[pid := cur] == s.buf[pid := cur];
  }

  /**
   * End to end: a section whose bytes start one unit-start packet (pointer
   * 0), run on through any number of continuation packets and end before
   * the pointer of the next unit-start packet is emitted once, with the
   * stuffing after it, by that next packet; what is yielded and what the
   * reader keeps do not depend on how the section was split across packets.
   */
  lemma SectionAcrossPackets(cs: seq<SectionClass>, s: ReaderState, first: seq<uint8>, conts: seq<seq<uint8>>,
                             next: seq<uint8>, more: seq<seq<uint8>>, sec: seq<uint8>, pad: seq<uint8>)
    requires Tracks(s) && |first| == PacketSize && Pid(first) in TargetPids(cs)
    requires Pid(first) !in s.buf || s.buf[Pid(first)] == []
    requires PayloadUnitStartIndicator(first) == 1 && Payload(first).Ok? && Payload(first).value.1 != []
    requires forall k :: 0 <= k < |conts| ==> Continues(Pid(first), conts[k])
    requires |next| == PacketSize && Pid(next) == Pid(first) && PayloadUnitStartIndicator(next) == 1 && Payload(next).Ok?
    requires forall k :: 0 <= k < |more| ==> |more[k]| == PacketSize
    requires Complete(sec) && (pad == [] || pad[0] == 0xFF)
    requires Payload(first).value.1 + Carried(Pid(first), conts) + Payload(next).value.0 == sec + pad
    requires sec[0] as nat in TableIdsOf(Build(cs), Pid(first))
    ensures var packets := [first] + conts + [next] + more;
      (forall k :: 0 <= k < |packets| ==> |packets[k]| == PacketSize) &&
      Tracks(Reassembled(cs, s, Pid(first), Payload(next).value.1)) &&
      (Pid(first), sec[0] as nat) in Build(cs).targetIds &&
      RunFrom(cs, s, packets) ==
        Prepend([Emitted(Pid(first), Build(cs).targetIds[(Pid(first), sec[0] as nat)], sec + pad)],
                RunFrom(cs, Reassembled(cs, s, Pid(first), Payload(next).value.1), more))
  {
    var pid := Pid(first);
    var a := Payload(first).value.1;
    var tail := conts + ([next] + more);
    Regroup(first, conts, next, more);
    var s2 := Reassembled(cs, s, pid, a);
    StepStartsUnit(cs, s, first);
    SectionCompletes(cs, s2, pid, conts, next, more, sec, pad);
    RunFromEmits(cs, s, first, tail, s2, []);
    RestartForgets(cs, s, pid, a, Payload(next).value.1);
    PrependNothing(RunFrom(cs, s2, tail));
  }

  lemma Regroup<T>(x: T, ys: seq<T>, z: T, ws: seq<T>)
    ensures [x] + ys + [z] + ws == [x] + (ys + ([z] + ws))
  {
  }

  lemma PrependNothing(f: FlushOutcome)
    ensures Prepend([], f) == f
  {
    assert [] + f.out == f.out;
  }

  /** Every section `sections` yields, from the packet loop or the flush, is registered for its PID and table id. */
  lemma {:induction false} RunEmitsRegistered(cs: seq<SectionClass>, s: ReaderState, packets: seq<seq<uint8>>)
    requires Tracks(s)
    requires forall k :: 0 <= k < |packets| ==> |packets[k]| == PacketSize
    ensures var f := RunFrom(cs, s, packets);
      forall j :: 0 <= j < |f.out| ==> Registered(cs, f.out[j])
    decreases |packets|
  {
    if packets == [] {
      FlushEmitsRegistered(cs, s, 0, false);
      assert RunFrom(cs, s, packets) == FlushFrom(cs, s, 0, false);
    } else {
      RunFromStep(cs, s, packets);
      StepEmitsRegistered(cs, s, packets[0]);
      var o := StepSpec(cs, s, packets[0]);
      if o.out.Ok? {
        RunEmitsRegistered(cs, o.state, packets[1..]);
      }
    }
  }
}
