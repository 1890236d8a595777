/**
 * The PSI sections of ariblib/sections.py: the PAT, PMT, NIT and SDT layouts
 * as schema classes, the generators the PAT and PMT offer over their loops
 * (`pmt_items`, `pmt_pids`, `video_pids`, `audio_pids`), and the `_pids` /
 * `_table_ids` class attributes the reader's dispatch tables are built from.
 */
module Sections {
  import opened Wrappers
  import opened Bits
  import opened Schema
  import opened Dispatch
  import Descriptors

  function U(name: string, bits: nat): Field
  {
    Descriptors.U(name, bits)
  }

  /** One entry of `ProgramAssociationSection.pids`. */
  function PatEntry(): Class
  {
    Class("pids", [U("program_number", 16), U("reserved", 3), U("program_map_PID", 13)], [], false)
  }

  /** `ProgramAssociationSection`: the header, `section_length - 9` bytes of 4-byte entries, and the CRC. */
  function Pat(): Class
  {
    Class("ProgramAssociationSection",
      [U("table_id", 8), U("section_syntax_indicator", 1), U("reserved_future_use", 1), U("reserved_1", 2),
       U("section_length", 12), U("transport_stream_id", 16), U("reserved_2", 2), U("version_number", 5),
       U("current_next_indicator", 1), U("section_number", 8), U("last_section_number", 8),
       Field("pids", SizeLoop(PatEntry()), Computed(Minus(Attr("section_length"), Lit(9)))), U("CRC_32", 32)],
      [], true)
  }

  /** One entry of `ProgramMapSection.maps`: 5 bytes and `ES_info_length` bytes of descriptors. */
  function PmtStream(): Class
  {
    Class("maps", [U("stream_type", 8), U("reserved_1", 3), U("elementary_PID", 13), U("reserved_2", 4),
      U("ES_info_length", 12), Field("descriptors", DescriptorList(false), ByField("ES_info_length"))], [], false)
  }

  /** `ProgramMapSection`: the streams fill `section_length - (13 + program_info_length)` bytes. */
  function Pmt(): Class
  {
    Class("ProgramMapSection",
      [U("table_id", 8), U("section_syntax_indicator", 1), U("reserved_future_use", 1), U("reserved_1", 2),
       U("section_length", 12), U("program_number", 16), U("reserved_2", 2), U("version_number", 5),
       U("current_next_indicator", 1), U("section_number", 8), U("last_section_number", 8),
       U("reserved_3", 3), U("PCR_PID", 13), U("reserved_4", 4), U("program_info_length", 12),
       Field("descriptors", DescriptorList(false), ByField("program_info_length")),
       Field("maps", SizeLoop(PmtStream()),
         Computed(Minus(Attr("section_length"), Plus(Lit(13), Attr("program_info_length"))))),
       U("CRC_32", 32)],
      [], true)
  }

  /** One entry of `NetworkInformationSection.transport_streams`. */
  function NitStream(): Class
  {
    Class("transport_streams", [U("transport_stream_id", 16), U("original_network_id", 16), U("reserved_future_use", 4),
      U("transport_descriptors_length", 12), Field("descriptors", DescriptorList(false), ByField("transport_descriptors_length"))],
      [], false)
  }

  /** `NetworkInformationSection`. */
  function Nit(): Class
  {
    Class("NetworkInformationSection",
      [U("table_id", 8), U("section_syntax_indicator", 1), U("reserved_future_use_1", 1), U("reserved_1", 2),
       U("section_length", 12), U("network_id", 16), U("reserved_2", 2), U("version_number", 5),
       U("current_next_indicator", 1), U("section_number", 8), U("last_section_number", 8),
       U("reserved_future_use_2", 4), U("network_descriptors_length", 12),
       Field("network_descriptors", DescriptorList(false), ByField("network_descriptors_length")),
       U("reserved_future_use_3", 4), U("transport_stream_loop_length", 12),
       Field("transport_streams", SizeLoop(NitStream()), ByField("transport_stream_loop_length")),
       U("CRC_32", 32)],
      [], true)
  }

  /** One entry of `ServiceDescriptionSection.services`. */
  function SdtService(): Class
  {
    Class("services", [U("service_id", 16), U("reserved_future_use", 3), U("EIT_user_defined_flags", 3),
      U("EIT_schedule_flag", 1), U("EIT_present_following_flag", 1), U("running_status", 3), U("free_CA_mode", 1),
      U("descriptors_loop_length", 12), Field("descriptors", DescriptorList(false), ByField("descriptors_loop_length"))],
      [], false)
  }

  /** `ServiceDescriptionSection`: the services fill `section_length - 12` bytes. */
  function Sdt(): Class
  {
    Class("ServiceDescriptionSection",
      [U("table_id", 8), U("section_syntax_indicator", 1), U("reserved_future_use_1", 1), U("reserved_1", 2),
       U("section_length", 12), U("transport_stream_id", 16), U("reserved_2", 2), U("version_number", 5),
       U("current_next_indicator", 1), U("section_number", 8), U("last_section_number", 8),
       U("original_network_id", 16), U("reserved_future_use_2", 8),
       Field("services", SizeLoop(SdtService()), Computed(Minus(Attr("section_length"), Lit(12)))),
       U("CRC_32", 32)],
      [], true)
  }

  /** Where the PAT's `section_length` sits. */
  lemma PatLengthLayout(p: seq<uint8>)
    ensures FixedField(Node(Pat(), p, 0, None), 4, "section_length", 12, 12)
  {
  }

  /** Where the PAT's identifying header fields sit. */
  lemma PatLayout(p: seq<uint8>)
    ensures FixedField(Node(Pat(), p, 0, None), 5, "transport_stream_id", 16, 24)
    ensures FixedField(Node(Pat(), p, 0, None), 7, "version_number", 5, 42)
  {
  }

  /** Where the PAT's entry loop sits, and the span it is given. */
  lemma PatLoopLayout(p: seq<uint8>)
    requires |p| >= 3
    ensures Low12StrideField(Node(Pat(), p, 0, None), 4, "section_length", 1, 11, "pids", PatEntry(), 64, 4, 9)
  {
    PatLengthLayout(p);
  }

  /** `section_length` is the low four bits of byte 1 and all of byte 2. */
  lemma PatSectionLength(env: Env, p: seq<uint8>, fuel: nat)
    requires fuel >= 4 && |p| >= 3
    ensures Get(env, Node(Pat(), p, 0, None), "section_length", fuel) == Ok(Int(Low12(p, 1)))
  {
    PatLengthLayout(p);
    OwnLow12Read(env, Node(Pat(), p, 0, None), 4, "section_length", 12, 1, fuel);
  }

  /** `transport_stream_id` is bytes 3 and 4, big-endian. */
  lemma PatTransportStreamId(env: Env, p: seq<uint8>, fuel: nat)
    requires fuel >= 4 && |p| >= 5
    ensures Get(env, Node(Pat(), p, 0, None), "transport_stream_id", fuel) == Ok(Int(BigEndian(p[3..5])))
  {
    PatLayout(p);
    OwnBytesRead(env, Node(Pat(), p, 0, None), 5, "transport_stream_id", 24, 3, 2, fuel);
  }

  /** `version_number` is bits 2-6 of byte 5, counting from the most significant: `(p[5] >> 1) & 0x1F`. */
  lemma PatVersionNumber(env: Env, p: seq<uint8>, fuel: nat)
    requires fuel >= 4 && |p| >= 6
    ensures Get(env, Node(Pat(), p, 0, None), "version_number", fuel) == Ok(Int(Masked(p[5], 6, 1)))
  {
    PatLayout(p);
    OwnBitsInByteRead(env, Node(Pat(), p, 0, None), 7, "version_number", 5, 42, 5, 2, fuel);
  }

  /**
   * `pids`: one 4-byte entry every 4 bytes from byte 8, as many as start
   * within `section_length - 9` bytes (which leaves out the CRC).
   */
  lemma PatPids(env: Env, p: seq<uint8>, fuel: nat)
    requires |p| >= 3 && fuel >= 4100
    ensures Get(env, Node(Pat(), p, 0, None), "pids", fuel) == Ok(Children(Tiles(PatEntry(), p, 8, Strides(Low12(p, 1) - 9, 4), 4)))
  {
    var n := Node(Pat(), p, 0, None);
    PatLoopLayout(p);
    assert Low12StrideField(n, 4, "section_length", 1, 11, "pids", PatEntry(), 64, 4, 9);
    OwnLow12MinusStride(env, n, 4, "section_length", 1, 11, "pids", PatEntry(), 64, 4, 9, fuel);
    assert 64 / 8 == 8;
  }

  /** Where the fields of a PAT entry at byte `j` sit. */
  lemma PatEntryLayout(p: seq<uint8>, j: nat, parent: Option<Node>)
    ensures FixedField(Node(PatEntry(), p, 8 * j, parent), 0, "program_number", 16, 8 * j)
    ensures FixedField(Node(PatEntry(), p, 8 * j, parent), 2, "program_map_PID", 13, 8 * (j + 2) + 3)
  {
  }

  /** A PAT entry's program number and PMT PID, as read from the bytes at `j`. */
  datatype Program = Program(number: nat, pid: nat)

  function ProgramAt(p: seq<uint8>, j: nat): Program
    requires j + 4 <= |p|
  {
    Program(BigEndian(p[j..j + 2]), Pid13(p, j + 2))
  }

  /** A PAT entry at byte `j` reads `program_number` from bytes `j, j + 1` and the PID from the next two. */
  lemma PatEntryFields(env: Env, p: seq<uint8>, j: nat, parent: Option<Node>, fuel: nat)
    requires fuel >= 4 && j + 4 <= |p|
    ensures Get(env, Node(PatEntry(), p, 8 * j, parent), "program_number", fuel) == Ok(Int(ProgramAt(p, j).number))
    ensures Get(env, Node(PatEntry(), p, 8 * j, parent), "program_map_PID", fuel) == Ok(Int(ProgramAt(p, j).pid))
  {
    var n := Node(PatEntry(), p, 8 * j, parent);
    PatEntryLayout(p, j, parent);
    OwnBytesRead(env, n, 0, "program_number", 8 * j, j, 2, fuel);
    OwnPidRead(env, n, 2, "program_map_PID", 8 * (j + 2) + 3, j + 2, fuel);
  }

  /** The programs of `count` entries from byte `start`. */
  function Programs(p: seq<uint8>, start: nat, count: nat): (r: seq<Program>)
    requires start + 4 * count <= |p|
    ensures |r| == count
    ensures forall i :: 0 <= i < count ==> r[i] == ProgramAt(p, start + 4 * i)
  {
    seq(count, i requires 0 <= i < count => ProgramAt(p, start + 4 * i))
  }

  /** Each entry node of the PAT's `pids` reads as the program at its position. */
  lemma PatProgramsRead(env: Env, p: seq<uint8>, count: nat, i: nat, fuel: nat)
    requires fuel >= 4 && 8 + 4 * count <= |p| && i < count
    ensures Get(env, Tiles(PatEntry(), p, 8, count, 4)[i], "program_number", fuel) == Ok(Int(Programs(p, 8, count)[i].number))
    ensures Get(env, Tiles(PatEntry(), p, 8, count, 4)[i], "program_map_PID", fuel) == Ok(Int(Programs(p, 8, count)[i].pid))
  {
    var j := 8 + 4 * i;
    assert Tiles(PatEntry(), p, 8, count, 4)[i] == Node(PatEntry(), p, 8 * j, None);
    PatEntryFields(env, p, j, None, fuel);
  }

  /** What `pmt_items` yields: `(program_number, program_map_PID)` of every entry whose number is not 0, in order. */
  function Items(ps: seq<Program>): seq<(nat, nat)>
  {
    if ps == [] then []
    else
      var last := ps[|ps| - 1];
      Items(ps[..|ps| - 1]) + (if last.number != 0 then [(last.number, last.pid)] else [])
  }

  /** What `pmt_pids` yields: `program_map_PID` of every entry whose number is not 0, in order. */
  function PmtPidsOf(ps: seq<Program>): seq<nat>
  {
    if ps == [] then []
    else
      var last := ps[|ps| - 1];
      PmtPidsOf(ps[..|ps| - 1]) + (if last.number != 0 then [last.pid] else [])
  }

  /** `pmt_items`: the generator's loop over the entries. */
  method PmtItems(ps: seq<Program>) returns (items: seq<(nat, nat)>)
    ensures items == Items(ps)
  {
    items := [];
    var i := 0;
    while i < |ps|
      invariant 0 <= i <= |ps| && items == Items(ps[..i])
    {
      assert ps[..i + 1][..i] == ps[..i];
      if ps[i].number != 0 {
        items := items + [(ps[i].number, ps[i].pid)];
      }
      i := i + 1;
    }
    assert ps[..i] == ps;
  }

  /** `pmt_pids`: the generator's loop over the entries. */
  method PmtPids(ps: seq<Program>) returns (pids: seq<nat>)
    ensures pids == PmtPidsOf(ps)
  {
    pids := [];
    var i := 0;
    while i < |ps|
      invariant 0 <= i <= |ps| && pids == PmtPidsOf(ps[..i])
    {
      assert ps[..i + 1][..i] == ps[..i];
      if ps[i].number != 0 {
        pids := pids + [ps[i].pid];
      }
      i := i + 1;
    }
    assert ps[..i] == ps;
  }

  /** Filtering distributes over concatenation: the entries keep their order. */
  lemma {:induction false} ItemsAppend(a: seq<Program>, b: seq<Program>)
    ensures Items(a + b) == Items(a) + Items(b)
    ensures PmtPidsOf(a + b) == PmtPidsOf(a) + PmtPidsOf(b)
    decreases |b|
  {
    if b != [] {
      var init := b[..|b| - 1];
      assert (a + b)[..|a + b| - 1] == a + init;
      assert (a + b)[|a + b| - 1] == b[|b| - 1];
      ItemsAppend(a, init);
    } else {
      assert a + b == a;
    }
  }

  /** Some entry with a non-zero number carries `x`. */
  predicate Carries(ps: seq<Program>, x: (nat, nat))
  {
    exists i :: 0 <= i < |ps| && ps[i].number != 0 && x == (ps[i].number, ps[i].pid)
  }

  lemma CarriesSnoc(ps: seq<Program>, x: (nat, nat))
    requires ps != []
    ensures Carries(ps, x) <==>
      Carries(ps[..|ps| - 1], x) || (ps[|ps| - 1].number != 0 && x == (ps[|ps| - 1].number, ps[|ps| - 1].pid))
  {
    var init := ps[..|ps| - 1];
    if Carries(init, x) {
      var i :| 0 <= i < |init| && init[i].number != 0 && x == (init[i].number, init[i].pid);
      assert ps[i] == init[i];
    }
    if Carries(ps, x) {
      var i :| 0 <= i < |ps| && ps[i].number != 0 && x == (ps[i].number, ps[i].pid);
      if i < |init| {
        assert init[i] == ps[i];
      }
    }
  }

  /** An item is yielded exactly when some entry with a non-zero number carries it. */
  lemma {:induction false} ItemsMembers(ps: seq<Program>, x: (nat, nat))
    ensures x in Items(ps) <==> Carries(ps, x)
    decreases |ps|
  {
    if ps != [] {
      ItemsMembers(ps[..|ps| - 1], x);
      CarriesSnoc(ps, x);
    }
  }

  /** `pmt_pids` is the second component of `pmt_items`, item by item. */
  lemma {:induction false} PmtPidsAreItemPids(ps: seq<Program>)
    ensures |PmtPidsOf(ps)| == |Items(ps)|
    ensures forall k :: 0 <= k < |Items(ps)| ==> PmtPidsOf(ps)[k] == Items(ps)[k].1
    decreases |ps|
  {
    if ps != [] {
      PmtPidsAreItemPids(ps[..|ps| - 1]);
    }
  }

  /** The PAT section of the library's own test packet, up to its CRC, four bytes to a row. */
  function TestPat(): seq<uint8>
  {
    [0x00, 0xB0, 0x1D, 0x7E] + [0x87, 0xD9, 0x00, 0x00] +
    [0x00, 0x00, 0xE0, 0x10] + [0x5C, 0x38, 0xE1, 0x01] + [0x5C, 0x39, 0xE1, 0x02] +
    [0x5D, 0xB8, 0xFF, 0xC8] + [0x5D, 0xB9, 0xFF, 0xC9] + [0x90, 0x3F, 0x0A, 0x85]
  }

  /** Its header: `section_length` 29, `transport_stream_id` 0x7E87, `version_number` 0x0C, and five entries. */
  lemma TestPatHeader()
    ensures Low12(TestPat(), 1) == 29 && BigEndian(TestPat()[3..5]) == 0x7E87 && Masked(TestPat()[5], 6, 1) == 0x0C
    ensures Strides(Low12(TestPat(), 1) - 9, 4) == 5
  {
    BigEndianPair(TestPat(), 3);
    assert Pow2(6) == 64 && Pow2(1) == 2;
  }

  /** The entries of the test PAT. */
  function TestPrograms(): seq<Program>
  {
    [Program(0, 0x10), Program(0x5C38, 0x101), Program(0x5C39, 0x102), Program(0x5DB8, 0x1FC8), Program(0x5DB9, 0x1FC9)]
  }

  /** Its five entries: the network PID 0x10 under number 0, then four services. */
  lemma TestPatPrograms()
    ensures Programs(TestPat(), 8, 5) == TestPrograms()
  {
    var t, ps := TestPat(), Programs(TestPat(), 8, 5);
    BigEndianPair(t, 8);
    BigEndianPair(t, 12);
    BigEndianPair(t, 16);
    BigEndianPair(t, 20);
    BigEndianPair(t, 24);
    assert ps[0] == TestPrograms()[0] && ps[1] == TestPrograms()[1] && ps[2] == TestPrograms()[2];
    assert ps[3] == TestPrograms()[3] && ps[4] == TestPrograms()[4];
  }

  /** `pmt_items` and `pmt_pids` skip the network entry. */
  lemma TestPatPmtPids()
    ensures Items(TestPrograms()) == [(0x5C38, 0x101), (0x5C39, 0x102), (0x5DB8, 0x1FC8), (0x5DB9, 0x1FC9)]
    ensures PmtPidsOf(TestPrograms()) == [0x101, 0x102, 0x1FC8, 0x1FC9]
  {
    var p0, p1, p2, p3, p4 := [Program(0, 0x10)], [Program(0x5C38, 0x101)], [Program(0x5C39, 0x102)],
                              [Program(0x5DB8, 0x1FC8)], [Program(0x5DB9, 0x1FC9)];
    assert TestPrograms() == p0 + p1 + p2 + p3 + p4;
    ItemsAppend(p0, p1);
    ItemsAppend(p0 + p1, p2);
    ItemsAppend(p0 + p1 + p2, p3);
    ItemsAppend(p0 + p1 + p2 + p3, p4);
  }

  /** Reading the test PAT's `pids` yields five entry nodes, one every 4 bytes from byte 8. */
  lemma TestPatPids(env: Env, fuel: nat)
    requires fuel >= 4100
    ensures Get(env, Node(Pat(), TestPat(), 0, None), "pids", fuel) == Ok(Children(Tiles(PatEntry(), TestPat(), 8, 5, 4)))
  {
    TestPatHeader();
    PatPids(env, TestPat(), fuel);
  }

  /** Where the PMT's `section_length` sits. */
  lemma PmtLengthLayout(p: seq<uint8>)
    ensures FixedField(Node(Pmt(), p, 0, None), 4, "section_length", 12, 12)
  {
    var fs := Pmt().fields;
    assert NoLaterName(fs, "section_length", 17);
    assert NoLaterName(fs, "section_length", 16);
    assert NoLaterName(fs, "section_length", 15);
    assert NoLaterName(fs, "section_length", 14);
    assert NoLaterName(fs, "section_length", 13);
    assert NoLaterName(fs, "section_length", 12);
    assert NoLaterName(fs, "section_length", 11);
    assert NoLaterName(fs, "section_length", 10);
    assert NoLaterName(fs, "section_length", 9);
    assert NoLaterName(fs, "section_length", 8);
    assert NoLaterName(fs, "section_length", 7);
    assert NoLaterName(fs, "section_length", 6);
    assert NoLaterName(fs, "section_length", 5);
  }

  /** Where the PMT's `program_number` sits. */
  lemma PmtNumberLayout(p: seq<uint8>)
    ensures FixedField(Node(Pmt(), p, 0, None), 5, "program_number", 16, 24)
  {
    var fs := Pmt().fields;
    assert NoLaterName(fs, "program_number", 17);
    assert NoLaterName(fs, "program_number", 16);
    assert NoLaterName(fs, "program_number", 15);
    assert NoLaterName(fs, "program_number", 14);
    assert NoLaterName(fs, "program_number", 13);
    assert NoLaterName(fs, "program_number", 12);
    assert NoLaterName(fs, "program_number", 11);
    assert NoLaterName(fs, "program_number", 10);
    assert NoLaterName(fs, "program_number", 9);
    assert NoLaterName(fs, "program_number", 8);
    assert NoLaterName(fs, "program_number", 7);
    assert NoLaterName(fs, "program_number", 6);
  }

  /** `PCR_PID` sits at bit 67. */
  lemma PmtPcrLayout(p: seq<uint8>)
    ensures FixedField(Node(Pmt(), p, 0, None), 12, "PCR_PID", 13, 67)
  {
    var fs := Pmt().fields;
    assert FixedPrefix(fs, 6) && PrefixWidth(fs, 6) == 40;
    assert FixedPrefix(fs, 12) && PrefixWidth(fs, 12) == 67;
    assert NoLaterName(fs, "PCR_PID", 17);
    assert NoLaterName(fs, "PCR_PID", 16);
    assert NoLaterName(fs, "PCR_PID", 15);
    assert NoLaterName(fs, "PCR_PID", 14);
    assert NoLaterName(fs, "PCR_PID", 13);
  }

  /** `program_info_length` sits at bit 84. */
  lemma PmtInfoLayout(p: seq<uint8>)
    ensures FixedField(Node(Pmt(), p, 0, None), 14, "program_info_length", 12, 84)
  {
    var fs := Pmt().fields;
    assert FixedPrefix(fs, 6) && PrefixWidth(fs, 6) == 40;
    assert FixedPrefix(fs, 12) && PrefixWidth(fs, 12) == 67;
    assert FixedPrefix(fs, 14) && PrefixWidth(fs, 14) == 84;
    assert NoLaterName(fs, "program_info_length", 17);
    assert NoLaterName(fs, "program_info_length", 16);
    assert NoLaterName(fs, "program_info_length", 15);
  }

  /** `PCR_PID` is the low five bits of byte 8 and all of byte 9. */
  lemma PmtPcrPid(env: Env, p: seq<uint8>, fuel: nat)
    requires fuel >= 4 && |p| >= 10
    ensures Get(env, Node(Pmt(), p, 0, None), "PCR_PID", fuel) == Ok(Int(Pid13(p, 8)))
  {
    PmtPcrLayout(p);
    OwnPidRead(env, Node(Pmt(), p, 0, None), 12, "PCR_PID", 67, 8, fuel);
  }

  /** `program_info_length` is the low four bits of byte 10 and all of byte 11. */
  lemma PmtProgramInfoLength(env: Env, p: seq<uint8>, fuel: nat)
    requires fuel >= 4 && |p| >= 12
    ensures Get(env, Node(Pmt(), p, 0, None), "program_info_length", fuel) == Ok(Int(Low12(p, 10)))
  {
    PmtInfoLayout(p);
    OwnLow12Read(env, Node(Pmt(), p, 0, None), 14, "program_info_length", 84, 10, fuel);
  }

  /** Where the fields of a PMT stream entry at byte `j` sit. */
  lemma PmtStreamLayout(p: seq<uint8>, j: nat, parent: Option<Node>)
    ensures FixedField(Node(PmtStream(), p, 8 * j, parent), 0, "stream_type", 8, 8 * j)
    ensures FixedField(Node(PmtStream(), p, 8 * j, parent), 2, "elementary_PID", 13, 8 * (j + 1) + 3)
    ensures FixedField(Node(PmtStream(), p, 8 * j, parent), 4, "ES_info_length", 12, 8 * (j + 3) + 4)
  {
  }

  /** A PMT stream entry's type and PID, as read from the bytes at `j`. */
  datatype Stream = Stream(streamType: nat, pid: nat)

  function StreamAt(p: seq<uint8>, j: nat): Stream
    requires j + 3 <= |p|
  {
    Stream(p[j], Pid13(p, j + 1))
  }

  /**
   * A stream entry at byte `j` reads `stream_type` from byte `j`, the PID
   * from the next two, and `ES_info_length` from the two after them.
   */
  lemma PmtStreamFields(env: Env, p: seq<uint8>, j: nat, parent: Option<Node>, fuel: nat)
    requires fuel >= 4 && j + 5 <= |p|
    ensures Get(env, Node(PmtStream(), p, 8 * j, parent), "stream_type", fuel) == Ok(Int(StreamAt(p, j).streamType))
    ensures Get(env, Node(PmtStream(), p, 8 * j, parent), "elementary_PID", fuel) == Ok(Int(StreamAt(p, j).pid))
    ensures Get(env, Node(PmtStream(), p, 8 * j, parent), "ES_info_length", fuel) == Ok(Int(Low12(p, j + 3)))
  {
    var n := Node(PmtStream(), p, 8 * j, parent);
    PmtStreamLayout(p, j, parent);
    OwnByteRead(env, n, 0, "stream_type", 8 * j, j, fuel);
    OwnPidRead(env, n, 2, "elementary_PID", 8 * (j + 1) + 3, j + 1, fuel);
    OwnLow12Read(env, n, 4, "ES_info_length", 8 * (j + 3) + 4, j + 3, fuel);
  }

  /** `video_types` of `video_pids`. */
  const VideoTypes: seq<nat> := [0x01, 0x02, 0x10]

  /** `audio_types` of `audio_pids`. */
  const AudioTypes: seq<nat> := [0x03, 0x04, 0x0F, 0x11]

  /** The elementary PIDs of the streams whose type is among `types`, in order. */
  function PidsOfTypes(ss: seq<Stream>, types: seq<nat>): seq<nat>
  {
    if ss == [] then []
    else
      var last := ss[|ss| - 1];
      PidsOfTypes(ss[..|ss| - 1], types) + (if last.streamType in types then [last.pid] else [])
  }

  /** The loop `video_pids` and `audio_pids` share: every stream whose type is among `types`. */
  method StreamPids(ss: seq<Stream>, types: seq<nat>) returns (pids: seq<nat>)
    ensures pids == PidsOfTypes(ss, types)
  {
    pids := [];
    var i := 0;
    while i < |ss|
      invariant 0 <= i <= |ss| && pids == PidsOfTypes(ss[..i], types)
    {
      assert ss[..i + 1][..i] == ss[..i];
      if ss[i].streamType in types {
        pids := pids + [ss[i].pid];
      }
      i := i + 1;
    }
    assert ss[..i] == ss;
  }

  /** `video_pids`: MPEG-1, MPEG-2 and MPEG-4 video streams. */
  method VideoPids(ss: seq<Stream>) returns (pids: seq<nat>)
    ensures pids == PidsOfTypes(ss, VideoTypes)
  {
    pids := StreamPids(ss, VideoTypes);
  }

  /** `audio_pids`: MPEG-1, MPEG-2, AAC and MPEG-4 audio streams. */
  method AudioPids(ss: seq<Stream>) returns (pids: seq<nat>)
    ensures pids == PidsOfTypes(ss, AudioTypes)
  {
    pids := StreamPids(ss, AudioTypes);
  }

  /** Some stream whose type is among `types` carries `pid`. */
  predicate Selects(ss: seq<Stream>, types: seq<nat>, pid: nat)
  {
    exists i :: 0 <= i < |ss| && ss[i].streamType in types && ss[i].pid == pid
  }

  lemma SelectsSnoc(ss: seq<Stream>, types: seq<nat>, pid: nat)
    requires ss != []
    ensures Selects(ss, types, pid) <==>
      Selects(ss[..|ss| - 1], types, pid) || (ss[|ss| - 1].streamType in types && ss[|ss| - 1].pid == pid)
  {
    var init := ss[..|ss| - 1];
    if Selects(init, types, pid) {
      var i :| 0 <= i < |init| && init[i].streamType in types && init[i].pid == pid;
      assert ss[i] == init[i];
    }
    if Selects(ss, types, pid) {
      var i :| 0 <= i < |ss| && ss[i].streamType in types && ss[i].pid == pid;
      if i < |init| {
        assert init[i] == ss[i];
      }
    }
  }

  /** A PID is listed exactly when some stream of one of the types carries it. */
  lemma {:induction false} PidsOfTypesMembers(ss: seq<Stream>, types: seq<nat>, pid: nat)
    ensures pid in PidsOfTypes(ss, types) <==> Selects(ss, types, pid)
    decreases |ss|
  {
    if ss != [] {
      PidsOfTypesMembers(ss[..|ss| - 1], types, pid);
      SelectsSnoc(ss, types, pid);
    }
  }

  /** Selection distributes over concatenation: the streams keep their order. */
  lemma {:induction false} PidsOfTypesAppend(a: seq<Stream>, b: seq<Stream>, types: seq<nat>)
    ensures PidsOfTypes(a + b, types) == PidsOfTypes(a, types) + PidsOfTypes(b, types)
    decreases |b|
  {
    if b != [] {
      var init := b[..|b| - 1];
      assert (a + b)[..|a + b| - 1] == a + init;
      assert (a + b)[|a + b| - 1] == b[|b| - 1];
      PidsOfTypesAppend(a, init, types);
    } else {
      assert a + b == a;
    }
  }

  /** Where the NIT's `network_id` sits. */
  lemma NitIdLayout(p: seq<uint8>)
    ensures FixedField(Node(Nit(), p, 0, None), 5, "network_id", 16, 24)
  {
    var fs := Nit().fields;
    assert NoLaterName(fs, "network_id", 17);
    assert NoLaterName(fs, "network_id", 16);
    assert NoLaterName(fs, "network_id", 15);
    assert NoLaterName(fs, "network_id", 14);
    assert NoLaterName(fs, "network_id", 13);
    assert NoLaterName(fs, "network_id", 12);
    assert NoLaterName(fs, "network_id", 11);
    assert NoLaterName(fs, "network_id", 10);
    assert NoLaterName(fs, "network_id", 9);
    assert NoLaterName(fs, "network_id", 8);
    assert NoLaterName(fs, "network_id", 7);
    assert NoLaterName(fs, "network_id", 6);
  }

  /** Where the NIT's `network_descriptors_length` sits: bit 68. */
  lemma NitDescriptorsLayout(p: seq<uint8>)
    ensures FixedField(Node(Nit(), p, 0, None), 12, "network_descriptors_length", 12, 68)
  {
    var fs := Nit().fields;
    assert FixedPrefix(fs, 6) && PrefixWidth(fs, 6) == 40;
    assert FixedPrefix(fs, 12) && PrefixWidth(fs, 12) == 68;
    assert NoLaterName(fs, "network_descriptors_length", 17);
    assert NoLaterName(fs, "network_descriptors_length", 16);
    assert NoLaterName(fs, "network_descriptors_length", 15);
    assert NoLaterName(fs, "network_descriptors_length", 14);
    assert NoLaterName(fs, "network_descriptors_length", 13);
  }

  /** `network_id` is bytes 3 and 4. */
  lemma NitNetworkId(env: Env, p: seq<uint8>, fuel: nat)
    requires fuel >= 4 && |p| >= 5
    ensures Get(env, Node(Nit(), p, 0, None), "network_id", fuel) == Ok(Int(BigEndian(p[3..5])))
  {
    NitIdLayout(p);
    OwnBytesRead(env, Node(Nit(), p, 0, None), 5, "network_id", 24, 3, 2, fuel);
  }

  /** `network_descriptors_length` is the low four bits of byte 8 and all of byte 9. */
  lemma NitDescriptorsLength(env: Env, p: seq<uint8>, fuel: nat)
    requires fuel >= 4 && |p| >= 10
    ensures Get(env, Node(Nit(), p, 0, None), "network_descriptors_length", fuel) == Ok(Int(Low12(p, 8)))
  {
    NitDescriptorsLayout(p);
    OwnLow12Read(env, Node(Nit(), p, 0, None), 12, "network_descriptors_length", 68, 8, fuel);
  }

  /** Where the SDT's `transport_stream_id` sits. */
  lemma SdtStreamLayout(p: seq<uint8>)
    ensures FixedField(Node(Sdt(), p, 0, None), 5, "transport_stream_id", 16, 24)
  {
    var fs := Sdt().fields;
    assert NoLaterName(fs, "transport_stream_id", 14);
    assert NoLaterName(fs, "transport_stream_id", 13);
    assert NoLaterName(fs, "transport_stream_id", 12);
    assert NoLaterName(fs, "transport_stream_id", 11);
    assert NoLaterName(fs, "transport_stream_id", 10);
    assert NoLaterName(fs, "transport_stream_id", 9);
    assert NoLaterName(fs, "transport_stream_id", 8);
    assert NoLaterName(fs, "transport_stream_id", 7);
    assert NoLaterName(fs, "transport_stream_id", 6);
  }

  /** Where the SDT's `original_network_id` sits: byte 8. */
  lemma SdtNetworkLayout(p: seq<uint8>)
    ensures FixedField(Node(Sdt(), p, 0, None), 11, "original_network_id", 16, 64)
  {
    var fs := Sdt().fields;
    assert FixedPrefix(fs, 6) && PrefixWidth(fs, 6) == 40;
    assert FixedPrefix(fs, 11) && PrefixWidth(fs, 11) == 64;
    assert NoLaterName(fs, "original_network_id", 14);
    assert NoLaterName(fs, "original_network_id", 13);
    assert NoLaterName(fs, "original_network_id", 12);
  }

  /** `transport_stream_id` is bytes 3 and 4, `original_network_id` bytes 8 and 9. */
  lemma SdtIds(env: Env, p: seq<uint8>, fuel: nat)
    requires fuel >= 4 && |p| >= 10
    ensures Get(env, Node(Sdt(), p, 0, None), "transport_stream_id", fuel) == Ok(Int(BigEndian(p[3..5])))
    ensures Get(env, Node(Sdt(), p, 0, None), "original_network_id", fuel) == Ok(Int(BigEndian(p[8..10])))
  {
    SdtStreamLayout(p);
    SdtNetworkLayout(p);
    OwnBytesRead(env, Node(Sdt(), p, 0, None), 5, "transport_stream_id", 24, 3, 2, fuel);
    OwnBytesRead(env, Node(Sdt(), p, 0, None), 11, "original_network_id", 64, 8, 2, fuel);
  }

  /** Where the fields of an SDT service entry at byte `j` sit. */
  lemma SdtServiceLayout(p: seq<uint8>, j: nat, parent: Option<Node>)
    ensures FixedField(Node(SdtService(), p, 8 * j, parent), 0, "service_id", 16, 8 * j)
    ensures FixedField(Node(SdtService(), p, 8 * j, parent), 2, "EIT_user_defined_flags", 3, 8 * (j + 2) + 3)
    ensures FixedField(Node(SdtService(), p, 8 * j, parent), 3, "EIT_schedule_flag", 1, 8 * (j + 2) + 6)
    ensures FixedField(Node(SdtService(), p, 8 * j, parent), 4, "EIT_present_following_flag", 1, 8 * (j + 2) + 7)
  {
  }

  /** A service entry at byte `j`: its id is bytes `j` and `j + 1`. */
  lemma SdtServiceId(env: Env, p: seq<uint8>, j: nat, parent: Option<Node>, fuel: nat)
    requires fuel >= 4 && j + 2 <= |p|
    ensures Get(env, Node(SdtService(), p, 8 * j, parent), "service_id", fuel) == Ok(Int(BigEndian(p[j..j + 2])))
  {
    SdtServiceLayout(p, j, parent);
    OwnBytesRead(env, Node(SdtService(), p, 8 * j, parent), 0, "service_id", 8 * j, j, 2, fuel);
  }

  /** Its three EIT user-defined flags are bits 3-5 of byte `j + 2`, counting from the most significant. */
  lemma SdtUserDefinedFlags(env: Env, p: seq<uint8>, j: nat, parent: Option<Node>, fuel: nat)
    requires fuel >= 4 && j + 3 <= |p|
    ensures Get(env, Node(SdtService(), p, 8 * j, parent), "EIT_user_defined_flags", fuel) == Ok(Int(Masked(p[j + 2], 5, 2)))
  {
    SdtServiceLayout(p, j, parent);
    OwnBitsInByteRead(env, Node(SdtService(), p, 8 * j, parent), 2, "EIT_user_defined_flags", 3, 8 * (j + 2) + 3, j + 2, 3, fuel);
  }

  /** `EIT_schedule_flag` is bit 6 of byte `j + 2`. */
  lemma SdtScheduleFlag(env: Env, p: seq<uint8>, j: nat, parent: Option<Node>, fuel: nat)
    requires fuel >= 4 && j + 3 <= |p|
    ensures Get(env, Node(SdtService(), p, 8 * j, parent), "EIT_schedule_flag", fuel) == Ok(Int(Masked(p[j + 2], 2, 1)))
  {
    SdtServiceLayout(p, j, parent);
    OwnBitsInByteRead(env, Node(SdtService(), p, 8 * j, parent), 3, "EIT_schedule_flag", 1, 8 * (j + 2) + 6, j + 2, 6, fuel);
  }

  /** `EIT_present_following_flag` is bit 7, the least significant, of byte `j + 2`. */
  lemma SdtPresentFollowingFlag(env: Env, p: seq<uint8>, j: nat, parent: Option<Node>, fuel: nat)
    requires fuel >= 4 && j + 3 <= |p|
    ensures Get(env, Node(SdtService(), p, 8 * j, parent), "EIT_present_following_flag", fuel) == Ok(Int(Masked(p[j + 2], 1, 0)))
  {
    SdtServiceLayout(p, j, parent);
    OwnBitsInByteRead(env, Node(SdtService(), p, 8 * j, parent), 4, "EIT_present_following_flag", 1, 8 * (j + 2) + 7, j + 2, 7, fuel);
  }

  /** A selection from streams none of whose types is listed is empty. */
  lemma {:induction false} NoneSelected(ss: seq<Stream>, types: seq<nat>)
    requires forall i :: 0 <= i < |ss| ==> ss[i].streamType !in types
    ensures PidsOfTypes(ss, types) == []
    decreases |ss|
  {
    if ss != [] {
      NoneSelected(ss[..|ss| - 1], types);
    }
  }

  /**
   * The first 36 bytes of the PMT section of the test stream: its header,
   * two program descriptors (9 bytes), and the first two stream entries.
   */
  function TestPmt(): seq<uint8>
  {
    [0x02, 0xB0, 0xC7, 0x5C] + [0x38, 0xD1, 0x00, 0x00] + [0xE1, 0x00, 0xF0, 0x09] +
    [0x09, 0x04, 0x00, 0x05] + [0xE0, 0x31, 0xC1, 0x01] + [0x84, 0x02, 0xE1, 0x21] +
    [0xF0, 0x06, 0x52, 0x01] + [0x00, 0xC8, 0x01, 0x53] + [0x0F, 0xE1, 0x12, 0xF0]
  }

  /**
   * Its header: `section_length` 199, `program_number` 0x5C38, `PCR_PID`
   * 0x100 and 9 bytes of program descriptors, so the streams start at byte
   * 21 and take 177 bytes; the first entry is MPEG-2 video on 0x121 with 6
   * descriptor bytes, so the second, AAC audio on 0x112, starts at byte 32.
   */
  lemma TestPmtHeader()
    ensures Low12(TestPmt(), 1) == 199 && BigEndian(TestPmt()[3..5]) == 0x5C38
    ensures Pid13(TestPmt(), 8) == 0x100 && Low12(TestPmt(), 10) == 9
    ensures Low12(TestPmt(), 1) - (13 + Low12(TestPmt(), 10)) == 177
    ensures StreamAt(TestPmt(), 12 + Low12(TestPmt(), 10)) == Stream(0x02, 0x121) && Low12(TestPmt(), 24) == 6
    ensures StreamAt(TestPmt(), 21 + 5 + Low12(TestPmt(), 24)) == Stream(0x0F, 0x112)
  {
    BigEndianPair(TestPmt(), 3);
  }

  /** Read through the layout, the test PMT gives the header fields and first entry its test expects. */
  lemma TestPmtReads(env: Env, parent: Option<Node>, fuel: nat)
    requires fuel >= 4
    ensures Get(env, Node(Pmt(), TestPmt(), 0, None), "PCR_PID", fuel) == Ok(Int(0x100))
    ensures Get(env, Node(Pmt(), TestPmt(), 0, None), "program_info_length", fuel) == Ok(Int(9))
    ensures Get(env, Node(PmtStream(), TestPmt(), 8 * 21, parent), "stream_type", fuel) == Ok(Int(0x02))
    ensures Get(env, Node(PmtStream(), TestPmt(), 8 * 21, parent), "elementary_PID", fuel) == Ok(Int(0x121))
  {
    TestPmtHeader();
    PmtPcrPid(env, TestPmt(), fuel);
    PmtProgramInfoLength(env, TestPmt(), fuel);
    PmtStreamFields(env, TestPmt(), 21, parent, fuel);
  }

  /** The eleven streams of the test PMT: video, audio, then nine data streams (type 0x0D). */
  function TestStreams(): seq<Stream>
  {
    [Stream(0x02, 0x121), Stream(0x0F, 0x112)] +
    [Stream(0x0D, 0x740), Stream(0x0D, 0x750), Stream(0x0D, 0x751), Stream(0x0D, 0x752), Stream(0x0D, 0x960),
     Stream(0x0D, 0x961), Stream(0x0D, 0x75E), Stream(0x0D, 0x75F), Stream(0x0D, 0x96E)]
  }

  /** Its one video PID is 0x121 and its one audio PID 0x112. */
  lemma TestPmtAvPids()
    ensures PidsOfTypes(TestStreams(), VideoTypes) == [0x121]
    ensures PidsOfTypes(TestStreams(), AudioTypes) == [0x112]
  {
    var av, data := TestStreams()[..2], TestStreams()[2..];
    assert TestStreams() == av + data;
    NoneSelected(data, VideoTypes);
    NoneSelected(data, AudioTypes);
    PidsOfTypesAppend(av, data, VideoTypes);
    PidsOfTypesAppend(av, data, AudioTypes);
    assert av[..1] == [Stream(0x02, 0x121)];
  }

  /** The first 12 bytes of the NIT section of the test stream. */
  function TestNit(): seq<uint8>
  {
    [0x40, 0xF0, 0x73, 0x7E] + [0x87, 0xC7, 0x00, 0x00] + [0xF0, 0x0D, 0x40, 0x07]
  }

  /** Its header: `section_length` 115, `network_id` 0x7E87, `version_number` 3, 13 bytes of network descriptors. */
  lemma TestNitHeader()
    ensures Low12(TestNit(), 1) == 115 && BigEndian(TestNit()[3..5]) == 0x7E87
    ensures Masked(TestNit()[5], 6, 1) == 3 && Low12(TestNit(), 8) == 13
  {
    BigEndianPair(TestNit(), 3);
    assert Pow2(6) == 64 && Pow2(1) == 2;
  }

  /** The first 16 bytes of the SDT section of the test stream: its header and the first service's fixed part. */
  function TestSdt(): seq<uint8>
  {
    [0x42, 0xF0, 0xDB, 0x7E] + [0x87, 0xC5, 0x00, 0x00] + [0x7E, 0x87, 0xFF, 0x5C] + [0x38, 0xF3, 0x00, 0x1D]
  }

  /**
   * Its header: transport stream and original network 0x7E87, version 2;
   * its first service, from byte 11: id 0x5C38, user-defined flags 4, both
   * EIT flags set, 29 bytes of descriptors.
   */
  lemma TestSdtHeader()
    ensures BigEndian(TestSdt()[3..5]) == 0x7E87 && BigEndian(TestSdt()[8..10]) == 0x7E87
    ensures Masked(TestSdt()[5], 6, 1) == 2
    ensures BigEndian(TestSdt()[11..13]) == 0x5C38 && Masked(TestSdt()[13], 5, 2) == 4
    ensures Masked(TestSdt()[13], 2, 1) == 1 && Masked(TestSdt()[13], 1, 0) == 1 && Low12(TestSdt(), 14) == 29
  {
    BigEndianPair(TestSdt(), 3);
    BigEndianPair(TestSdt(), 8);
    BigEndianPair(TestSdt(), 11);
    assert Pow2(6) == 64 && Pow2(5) == 32 && Pow2(2) == 4 && Pow2(1) == 2 && Pow2(0) == 1;
  }

  /** Read through the layouts, the test SDT gives the ids and first service its test expects. */
  lemma TestSdtReads(env: Env, parent: Option<Node>, fuel: nat)
    requires fuel >= 4
    ensures Get(env, Node(Sdt(), TestSdt(), 0, None), "original_network_id", fuel) == Ok(Int(0x7E87))
    ensures Get(env, Node(SdtService(), TestSdt(), 8 * 11, parent), "service_id", fuel) == Ok(Int(0x5C38))
    ensures Get(env, Node(SdtService(), TestSdt(), 8 * 11, parent), "EIT_user_defined_flags", fuel) == Ok(Int(4))
  {
    TestSdtHeader();
    SdtIds(env, TestSdt(), fuel);
    SdtServiceId(env, TestSdt(), 11, parent, fuel);
    SdtUserDefinedFlags(env, TestSdt(), 11, parent, fuel);
  }
}
