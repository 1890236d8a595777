/**
 * The descriptors of ariblib/descriptors.py: the tag registry `@tag` fills,
 * the descriptor-list field that walks a run of descriptors and groups them
 * by class, and the layouts of the descriptors the model covers.
 */
module Descriptors {
  import opened Wrappers
  import opened Bits
  import opened Schema

  /** The registrations `@tag` makes as the module is imported, later ones replacing earlier ones. */
  function Registered(decls: seq<(int, Class)>): map<int, Class>
  {
    if decls == [] then map[]
    else Registered(decls[..|decls| - 1])[decls[|decls| - 1].0 := decls[|decls| - 1].1]
  }

  /** A tag maps to the class of its last registration, and only registered tags have a class. */
  lemma {:induction false} RegisteredLast(decls: seq<(int, Class)>, t: int)
    ensures t in Registered(decls) <==> exists j :: 0 <= j < |decls| && decls[j].0 == t
    ensures forall j :: 0 <= j < |decls| && decls[j].0 == t && (forall k :: j < k < |decls| ==> decls[k].0 != t) ==>
      t in Registered(decls) && Registered(decls)[t] == decls[j].1
    decreases |decls|
  {
    if decls != [] {
      var init := decls[..|decls| - 1];
      RegisteredLast(init, t);
      if exists j :: 0 <= j < |init| && init[j].0 == t {
        var j :| 0 <= j < |init| && init[j].0 == t;
        assert decls[j] == init[j];
      }
      if exists j :: 0 <= j < |decls| && decls[j].0 == t {
        var j :| 0 <= j < |decls| && decls[j].0 == t;
        if j < |init| {
          assert init[j] == decls[j];
        }
      }
      forall j | 0 <= j < |decls| && decls[j].0 == t && (forall k :: j < k < |decls| ==> decls[k].0 != t)
        ensures t in Registered(decls) && Registered(decls)[t] == decls[j].1
      {
        if j < |init| {
          assert init[j] == decls[j];
          forall k | j < k < |init|
            ensures init[k].0 != t
          {
            assert init[k] == decls[k];
          }
        }
      }
    }
  }

  /** The module-level `tags` dictionary and the class `get` falls back to. */
  class TagRegistry {
    var tags: map<int, Class>
    const base: Class

    constructor(base: Class)
      ensures tags == map[] && this.base == base
    {
      tags := map[];
      this.base := base;
    }

    /** `tag(tag_id)(cls)`: `cls` is now the class of `tag_id`, and every other tag keeps its class. */
    method Tag(tagId: int, cls: Class) returns (c: Class)
      modifies this
      ensures c == cls
      ensures tags == old(tags)[tagId := cls]
    {
      tags := tags[tagId := cls];
      c := cls;
    }

    /** Importing the module: every `@tag` in order. */
    method RegisterAll(decls: seq<(int, Class)>)
      modifies this
      ensures tags == old(tags) + Registered(decls)
    {
      var i := 0;
      while i < |decls|
        invariant 0 <= i <= |decls|
        invariant tags == old(tags) + Registered(decls[..i])
      {
        assert decls[..i + 1][..i] == decls[..i];
        var _ := Tag(decls[i].0, decls[i].1);
        i := i + 1;
      }
      assert decls[..i] == decls;
    }

    /** `Descriptor.get(tag)`: the registered class, else the base layout. */
    function Get(t: int): (c: Class)
      reads this
      ensures c == ClassForTag(Snapshot(), t)
      ensures t in tags ==> c == tags[t]
      ensures t !in tags ==> c == base
    {
      if t in tags then tags[t] else base
    }

    /** The registry as the walk consults it. */
    function Snapshot(): (r: Registry)
      reads this
      ensures r.tags == tags && r.base == base
    {
      Registry(tags, base)
    }
  }

  /** `Ok(items + rest)` when the rest of a walk completes, its exception otherwise. */
  function Prepend(items: seq<Node>, rest: Result<seq<Node>, Failure>): Result<seq<Node>, Failure>
  {
    match rest
    case Ok(tail) => Ok(items + tail)
    case Err(e) => Err(e)
  }

  /** Grouping one more descriptor appends it to its class's list. */
  lemma GroupSnoc(items: seq<Node>, d: Node)
    ensures Group(items + [d]) == Group(items)[d.cls := (if d.cls in Group(items) then Group(items)[d.cls] else []) + [d]]
  {
    assert (items + [d])[..|items|] == items;
  }

  /** One step of the walk: the descriptor at the cursor, then the walk from its end. */
  lemma WalkStep(reg: Registry, p: seq<uint8>, cursor: int, end: int, items: seq<Node>)
    requires 0 <= cursor < end && cursor + 1 < |p|
    ensures var blockEnd := cursor + p[cursor + 1] as int + 2;
      Prepend(items, Walk(reg, p, cursor, end)) ==
      Prepend(items + [Node(ClassForTag(reg, p[cursor]), PySlice(p, cursor, blockEnd), 0, None)], Walk(reg, p, blockEnd, end))
  {
    var blockEnd := cursor + p[cursor + 1] as int + 2;
    var inner := Node(ClassForTag(reg, p[cursor]), PySlice(p, cursor, blockEnd), 0, None);
    match Walk(reg, p, blockEnd, end)
    case Err(e) =>
    case Ok(rest) =>
      assert items + ([inner] + rest) == items + [inner] + rest;
  }

  /**
   * `descriptors.__get__` from byte `start` to byte `end`: the loop that
   * reads each descriptor's tag and length, builds it on its own slice and
   * appends it to its class's list. It gives what the walk specifies,
   * grouped, or the walk's exception.
   */
  method Collect(reg: Registry, p: seq<uint8>, start: int, end: int) returns (r: Result<map<Class, seq<Node>>, Failure>)
    ensures Walk(reg, p, start, end).Ok? ==> r == Ok(Group(Walk(reg, p, start, end).value))
    ensures Walk(reg, p, start, end).Err? ==> r == Err(Walk(reg, p, start, end).error)
  {
    var result: map<Class, seq<Node>> := map[];
    ghost var items: seq<Node> := [];
    var cursor := start;
    assert Walk(reg, p, start, end) == Prepend([], Walk(reg, p, start, end)) by {
      if Walk(reg, p, start, end).Ok? {
        assert [] + Walk(reg, p, start, end).value == Walk(reg, p, start, end).value;
      }
    }
    while cursor < end
      invariant Walk(reg, p, start, end) == Prepend(items, Walk(reg, p, cursor, end))
      invariant result == Group(items)
      decreases end - cursor
    {
      if cursor < 0 {
        return Err(Unsupported);
      }
      if cursor + 1 >= |p| {
        return Err(IndexError);
      }
      var descriptorTag := p[cursor];
      var blockEnd := cursor + p[cursor + 1] as int + 2;
      var descClass := ClassForTag(reg, descriptorTag);
      var inner := Node(descClass, PySlice(p, cursor, blockEnd), 0, None);
      GroupSnoc(items, inner);
      WalkStep(reg, p, cursor, end, items);
      result := result[descClass := (if descClass in result then result[descClass] else []) + [inner]];
      items := items + [inner];
      cursor := blockEnd;
    }
    assert items + [] == items;
    r := Ok(result);
  }

  /** A `uimsbf` field of a literal width. */
  function U(name: string, bits: nat): Field
  {
    Field(name, Uimsbf, Literal(bits))
  }

  /** `Descriptor`: tag, length, and the body read as one integer of `descriptor_length` bytes. */
  function BaseDescriptor(): Class
  {
    Class("Descriptor", [U("descriptor_tag", 8), U("descriptor_length", 8),
      Field("descriptor", Uimsbf, ByField("descriptor_length"))], [], false)
  }

  /** `descriptor_length - k`. */
  function LengthMinus(k: int): Expr
  {
    Minus(Attr("descriptor_length"), Lit(k))
  }

  /** 0x09 `ConditionalAccessDescriptor`. */
  function ConditionalAccess(): Class
  {
    Class("ConditionalAccessDescriptor", [U("descriptor_tag", 8), U("descriptor_length", 8),
      U("CA_system_ID", 16), U("reserved", 3), U("CA_PID", 13),
      Field("private_data_byte", Uimsbf, Computed(LengthMinus(4)))], BaseDescriptor().fields, false)
  }

  /** 0x0D `CopyrightDescriptor` as written: its body starts with `descriptor_length`, without the tag. */
  function CopyrightAsWritten(): Class
  {
    Class("CopyrightDescriptor", [U("descriptor_length", 8), U("copyright_identifier", 32),
      Field("additional_copyright_info", Uimsbf, Computed(LengthMinus(4)))], BaseDescriptor().fields, false)
  }

  /** 0x0D `CopyrightDescriptor` with the tag field every other descriptor declares first. */
  function Copyright(): Class
  {
    Class("CopyrightDescriptor", [U("descriptor_tag", 8), U("descriptor_length", 8), U("copyright_identifier", 32),
      Field("additional_copyright_info", Uimsbf, Computed(LengthMinus(4)))], BaseDescriptor().fields, false)
  }

  /** 0x40 `NetworkNameDescriptor`: the name is `descriptor_length` bytes of 8-unit text. */
  function NetworkName(): Class
  {
    Class("NetworkNameDescriptor", [U("descriptor_tag", 8), U("descriptor_length", 8),
      Field("char", AribStr, ByField("descriptor_length"))], BaseDescriptor().fields, false)
  }

  /** One entry of `ServiceListDescriptor.services`. */
  function ServiceEntry(): Class
  {
    Class("services", [U("service_id", 16), U("service_type", 8)], [], false)
  }

  /** 0x41 `ServiceListDescriptor`: 3-byte entries filling `descriptor_length` bytes. */
  function ServiceList(): Class
  {
    Class("ServiceListDescriptor", [U("descriptor_tag", 8), U("descriptor_length", 8),
      Field("services", SizeLoop(ServiceEntry()), ByField("descriptor_length"))], BaseDescriptor().fields, false)
  }

  /** The case bodies of `DigitalCopyControlDescriptor`. */
  function WithAps(): Class { Class("with_APS", [U("APS_control_data", 2)], [], false) }
  function WithoutAps(): Class { Class("without_APS", [U("reserved_future_use", 2)], [], false) }
  function WithMaximumBitrate(): Class { Class("with_maximum_bitrate", [U("maximum_bitrate", 8)], [], false) }

  /** One entry of the component-control loop. */
  function ComponentEntry(): Class
  {
    Class("components", [U("component_tag", 8), U("digirtal_recording_contorl_data", 2),
      U("maximum_bitrate_flag", 1), U("reserved_future_use", 1), U("user_defined", 4),
      Field("with_maximum_bitrate", Case(WithMaximumBitrate(), Truthy(Attr("maximum_bitrate_flag"))), Nested)], [], false)
  }

  function WithComponentControl(): Class
  {
    Class("with_component_control", [U("component_control_length", 8),
      Field("components", SizeLoop(ComponentEntry()), ByField("component_control_length"))], [], false)
  }

  /** 0xC1 `DigitalCopyControlDescriptor`. */
  function DigitalCopyControl(): Class
  {
    Class("DigitalCopyControlDescriptor", [U("descriptor_tag", 8), U("descriptor_length", 8),
      U("digital_recording_control_data", 2), U("maximum_bitrate_flag", 1),
      U("component_control_flag", 1), U("copy_control_type", 2),
      Field("with_APS", Case(WithAps(), CopyControlIs(1)), Nested),
      Field("without_APS", Case(WithoutAps(), NotEqual(Attr("copy_control_type"), 1)), Nested),
      Field("with_maximum_bitrate", Case(WithMaximumBitrate(), Truthy(Attr("maximum_bitrate_flag"))), Nested),
      Field("with_component_control", Case(WithComponentControl(), Truthy(Attr("component_control_flag"))), Nested)],
      BaseDescriptor().fields, false)
  }

  /** The length of `audio_text`: 12 bytes of fixed fields with a second language, else 9. */
  function AudioTextLength(): Expr
  {
    IfThen(Equal(Attr("ES_multi_lingual_flag"), 1), LengthMinus(12), LengthMinus(9))
  }

  /** 0xC4 `AudioComponentDescriptor`. */
  function AudioComponent(): Class
  {
    Class("AudioComponentDescriptor", [U("descriptor_tag", 8), U("descriptor_length", 8),
      U("reserved_future_use", 4), U("stream_content", 4), U("component_type", 8), U("component_tag", 8),
      U("stream_type", 8), U("simulcast_group_tag", 8), U("ES_multi_lingual_flag", 1),
      U("main_component_flag", 1), U("quality_indicator", 2), U("sampling_rate", 3),
      U("reserved_future_use_2", 1), Field("ISO_639_language_code", Char, Literal(24)),
      Field("with_ES_multi_lingual", Case(Class("with_ES_multi_lingual", [Field("ISO_639_language_code_2", Char, Literal(24))], [], false),
        Truthy(Attr("ES_multi_lingual_flag"))), Nested),
      Field("audio_text", AribStr, Computed(AudioTextLength()))], BaseDescriptor().fields, false)
  }

  /** One entry of `TerrestrialDeliverySystemDescriptor.freqs`. */
  function FrequencyEntry(): Class
  {
    Class("freqs", [U("frequency", 16)], [], false)
  }

  /** 0xFA `TerrestrialDeliverySystemDescriptor`. */
  function TerrestrialDelivery(): Class
  {
    Class("TerrestrialDeliverySystemDescriptor", [U("descriptor_tag", 8), U("descriptor_length", 8),
      U("area_code", 12), U("guard_interval", 2), U("transmission_mode", 2),
      Field("freqs", SizeLoop(FrequencyEntry()), Computed(LengthMinus(2)))], BaseDescriptor().fields, false)
  }

  /** The registrations of the layouts above, in the order the module declares them. */
  function Declarations(): seq<(int, Class)>
  {
    [(0x09, ConditionalAccess()), (0x0D, Copyright()), (0x40, NetworkName()), (0x41, ServiceList()),
     (0xC1, DigitalCopyControl()), (0xC4, AudioComponent()), (0xFA, TerrestrialDelivery())]
  }

  /** The section-descriptor registry of the model. */
  function SectionRegistry(): Registry
  {
    Registry(Registered(Declarations()), BaseDescriptor())
  }

  /** Each modelled tag finds its layout, and any other tag the base `Descriptor` layout. */
  lemma SectionRegistryLookup(t: int)
    ensures ClassForTag(SectionRegistry(), t) ==
      if t == 0x09 then ConditionalAccess() else if t == 0x0D then Copyright()
      else if t == 0x40 then NetworkName() else if t == 0x41 then ServiceList()
      else if t == 0xC1 then DigitalCopyControl() else if t == 0xC4 then AudioComponent()
      else if t == 0xFA then TerrestrialDelivery() else BaseDescriptor()
  {
    var decls := Declarations();
    RegisteredLast(decls, t);
    var j := if t == 0x09 then 0 else if t == 0x0D then 1 else if t == 0x40 then 2 else if t == 0x41 then 3
      else if t == 0xC1 then 4 else if t == 0xC4 then 5 else 6;
    if decls[j].0 == t {
      assert forall k :: j < k < |decls| ==> decls[k].0 != t;
    } else {
      assert forall i :: 0 <= i < |decls| ==> decls[i].0 != t;
    }
  }

  /** Where the conditional-access fields sit: after 16 and 35 bits of fixed-width fields, unshadowed. */
  lemma ConditionalAccessLayout(p: seq<uint8>)
    ensures FixedField(Node(ConditionalAccess(), p, 0, None), 1, "descriptor_length", 8, 8)
    ensures FixedField(Node(ConditionalAccess(), p, 0, None), 2, "CA_system_ID", 16, 16)
    ensures FixedField(Node(ConditionalAccess(), p, 0, None), 4, "CA_PID", 13, 35)
  {
  }

  /** `CA_system_ID` is the big-endian value of bytes 2-3 of a conditional-access descriptor. */
  lemma CaSystemId(env: Env, p: seq<uint8>, fuel: nat)
    requires fuel >= 4 && |p| >= 6
    ensures Get(env, Node(ConditionalAccess(), p, 0, None), "CA_system_ID", fuel) == Ok(Int(BigEndian(p[2..4])))
  {
    ConditionalAccessLayout(p);
    OwnBytesRead(env, Node(ConditionalAccess(), p, 0, None), 2, "CA_system_ID", 16, 2, 2, fuel);
  }

  /** `CA_PID` is the low 13 bits of bytes 4-5 (the 3 bits above it are reserved). */
  lemma CaPid(env: Env, p: seq<uint8>, fuel: nat)
    requires fuel >= 4 && |p| >= 6
    ensures Get(env, Node(ConditionalAccess(), p, 0, None), "CA_PID", fuel) == Ok(Int(Pid13(p, 4)))
  {
    ConditionalAccessLayout(p);
    OwnPidRead(env, Node(ConditionalAccess(), p, 0, None), 4, "CA_PID", 35, 4, fuel);
  }

  /** Where the service-list fields sit, and the 3-byte width of an entry. */
  lemma ServiceListLayout(p: seq<uint8>)
    requires |p| >= 2
    ensures FixedField(Node(ServiceList(), p, 0, None), 1, "descriptor_length", 8, 8)
    ensures StrideField(Node(ServiceList(), p, 0, None), 2, "services", ServiceEntry(), 16, 3)
    ensures ServiceList().fields[2] == Field("services", SizeLoop(ServiceEntry()), ByField("descriptor_length"))
  {
  }

  /**
   * `services` of a service-list descriptor: one 3-byte entry every 3 bytes
   * from byte 2, as many as start within the `descriptor_length` bytes.
   */
  lemma ServiceListServices(env: Env, p: seq<uint8>, fuel: nat)
    requires |p| >= 2 && fuel >= 262
    ensures Get(env, Node(ServiceList(), p, 0, None), "services", fuel) ==
      Ok(Children(Tiles(ServiceEntry(), p, 2, Strides(p[1], 3), 3)))
  {
    var n := Node(ServiceList(), p, 0, None);
    ServiceListLayout(p);
    OwnByteRead(env, n, 1, "descriptor_length", 8, 1, fuel - 3);
    ByFieldLength(env, n, n.cls.fields[2], "descriptor_length", p[1], fuel - 2);
    OwnStrideLoopRead(env, n, 2, "services", ServiceEntry(), 16, p[1], 3, fuel);
  }

  /**
   * Where the copyright fields sit. As written the body starts with
   * `descriptor_length`, so it and `copyright_identifier` sit a byte early;
   * with the tag declared first they sit where the descriptor puts them.
   */
  lemma CopyrightLayout(p: seq<uint8>)
    ensures FixedField(Node(CopyrightAsWritten(), p, 0, None), 0, "descriptor_length", 8, 0)
    ensures FixedField(Node(CopyrightAsWritten(), p, 0, None), 1, "copyright_identifier", 32, 8)
    ensures FixedField(Node(Copyright(), p, 0, None), 1, "descriptor_length", 8, 8)
    ensures FixedField(Node(Copyright(), p, 0, None), 2, "copyright_identifier", 32, 16)
  {
  }

  /** As written, `descriptor_length` reads the tag byte and `copyright_identifier` starts at the length byte. */
  lemma CopyrightAsWrittenReads(env: Env, p: seq<uint8>, fuel: nat)
    requires fuel >= 4 && |p| >= 5
    ensures Get(env, Node(CopyrightAsWritten(), p, 0, None), "descriptor_length", fuel) == Ok(Int(p[0] as int))
    ensures Get(env, Node(CopyrightAsWritten(), p, 0, None), "copyright_identifier", fuel) == Ok(Int(BigEndian(p[1..5])))
  {
    CopyrightLayout(p);
    OwnByteRead(env, Node(CopyrightAsWritten(), p, 0, None), 0, "descriptor_length", 0, 0, fuel);
    OwnBytesRead(env, Node(CopyrightAsWritten(), p, 0, None), 1, "copyright_identifier", 8, 1, 4, fuel);
  }

  /** For the copyright descriptor `0D 04 00 00 00 01`, the length read as written is 13, not 4. */
  lemma CopyrightAsWrittenMisreadsLength(env: Env, fuel: nat)
    requires fuel >= 4
    ensures Get(env, Node(CopyrightAsWritten(), [0x0D, 0x04, 0, 0, 0, 1], 0, None), "descriptor_length", fuel) == Ok(Int(13))
    ensures Get(env, Node(Copyright(), [0x0D, 0x04, 0, 0, 0, 1], 0, None), "descriptor_length", fuel) == Ok(Int(4))
  {
    var p: seq<uint8> := [0x0D, 0x04, 0, 0, 0, 1];
    CopyrightAsWrittenReads(env, p, fuel);
    CopyrightReads(env, p, fuel);
  }

  /** With the tag declared, `descriptor_length` is byte 1 and `copyright_identifier` bytes 2-5. */
  lemma CopyrightReads(env: Env, p: seq<uint8>, fuel: nat)
    requires fuel >= 4 && |p| >= 6
    ensures Get(env, Node(Copyright(), p, 0, None), "descriptor_length", fuel) == Ok(Int(p[1] as int))
    ensures Get(env, Node(Copyright(), p, 0, None), "copyright_identifier", fuel) == Ok(Int(BigEndian(p[2..6])))
  {
    CopyrightLayout(p);
    OwnByteRead(env, Node(Copyright(), p, 0, None), 1, "descriptor_length", 8, 1, fuel);
    OwnBytesRead(env, Node(Copyright(), p, 0, None), 2, "copyright_identifier", 16, 2, 4, fuel);
  }

  /** Where the terrestrial-delivery fields sit, and the 2-byte width of a frequency entry. */
  lemma TerrestrialLayout(p: seq<uint8>)
    requires |p| >= 2
    ensures ByteStrideField(Node(TerrestrialDelivery(), p, 0, None), 1, "descriptor_length", 1, 5, "freqs", FrequencyEntry(), 32, 2, 2)
  {
  }

  /**
   * `freqs` of a terrestrial-delivery descriptor: one 2-byte frequency every
   * 2 bytes from byte 4, as many as start within `descriptor_length - 2`
   * bytes (none when that is not positive).
   */
  lemma TerrestrialFreqs(env: Env, p: seq<uint8>, fuel: nat)
    requires |p| >= 2 && fuel >= 262
    ensures Get(env, Node(TerrestrialDelivery(), p, 0, None), "freqs", fuel) ==
      Ok(Children(Tiles(FrequencyEntry(), p, 4, Strides(p[1] as int - 2, 2), 2)))
  {
    var n := Node(TerrestrialDelivery(), p, 0, None);
    TerrestrialLayout(p);
    OwnByteMinusStride(env, n, 1, "descriptor_length", 1, 5, "freqs", FrequencyEntry(), 32, 2, 2, fuel);
    assert 32 / 8 == 4;
  }

  /** The `copy_control_type` test of the two APS case tables. */
  function CopyControlIs(k: int): Cond
  {
    Equal(Attr("copy_control_type"), k)
  }

  /**
   * Where the digital-copy-control fields sit: `copy_control_type` is bits
   * 4-5 of byte 2, and the APS case tables follow it, at bit 22.
   */
  lemma DigitalCopyControlLayout(p: seq<uint8>)
    ensures FixedField(Node(DigitalCopyControl(), p, 0, None), 5, "copy_control_type", 2, 20)
    ensures CaseField(Node(DigitalCopyControl(), p, 0, None), 6, "with_APS", WithAps(), CopyControlIs(1))
    ensures CaseField(Node(DigitalCopyControl(), p, 0, None), 7, "without_APS", WithoutAps(), NotEqual(Attr("copy_control_type"), 1))
    ensures FixedPrefix(DigitalCopyControl().fields, 6) && PrefixWidth(DigitalCopyControl().fields, 6) == 22
    ensures DigitalCopyControl().fields[6].kind == Case(WithAps(), CopyControlIs(1))
    ensures FixedField(Node(WithAps(), p, 22, Some(Node(DigitalCopyControl(), p, 0, None))), 0, "APS_control_data", 2, 22)
  {
  }

  /** `copy_control_type` is bits 4-5 of byte 2, counting from the most significant: `(p[2] >> 2) & 3`. */
  lemma CopyControlType(env: Env, p: seq<uint8>, fuel: nat)
    requires fuel >= 4 && |p| >= 3
    ensures Get(env, Node(DigitalCopyControl(), p, 0, None), "copy_control_type", fuel) == Ok(Int(Masked(p[2], 4, 2)))
  {
    DigitalCopyControlLayout(p);
    OwnBitsInByteRead(env, Node(DigitalCopyControl(), p, 0, None), 5, "copy_control_type", 2, 20, 2, 4, fuel);
  }

  /** The two APS conditions, evaluated on `copy_control_type`. */
  lemma CopyControlConditions(env: Env, p: seq<uint8>, fuel: nat)
    requires fuel >= 6 && |p| >= 3
    ensures Holds(env, Node(DigitalCopyControl(), p, 0, None), CopyControlIs(1), fuel) == Ok(Masked(p[2], 4, 2) == 1)
    ensures Holds(env, Node(DigitalCopyControl(), p, 0, None), NotEqual(Attr("copy_control_type"), 1), fuel) ==
      Ok(Masked(p[2], 4, 2) != 1)
  {
    CopyControlType(env, p, fuel - 2);
    EqualityConditions(env, Node(DigitalCopyControl(), p, 0, None), "copy_control_type", 1, Masked(p[2], 4, 2), fuel);
  }

  /** `with_APS` is present, from bit 22, exactly when `copy_control_type` is 1. */
  lemma WithApsPresence(env: Env, p: seq<uint8>, fuel: nat)
    requires fuel >= 8 && |p| >= 3
    ensures Get(env, Node(DigitalCopyControl(), p, 0, None), "with_APS", fuel) ==
      if Masked(p[2], 4, 2) == 1 then Ok(Child(Node(WithAps(), p, 22, Some(Node(DigitalCopyControl(), p, 0, None)))))
      else Ok(NoneValue)
  {
    var n, c := Node(DigitalCopyControl(), p, 0, None), Masked(p[2], 4, 2);
    DigitalCopyControlLayout(p);
    CopyControlConditions(env, p, fuel - 2);
    OwnCaseAfterFixed(env, n, 6, "with_APS", WithAps(), CopyControlIs(1), 22, c == 1, fuel);
  }

  /** `without_APS` is present, from bit 22, exactly when `copy_control_type` is not 1. */
  lemma WithoutApsPresence(env: Env, p: seq<uint8>, fuel: nat)
    requires fuel >= 10 && |p| >= 3
    ensures Get(env, Node(DigitalCopyControl(), p, 0, None), "without_APS", fuel) ==
      if Masked(p[2], 4, 2) == 1 then Ok(NoneValue)
      else Ok(Child(Node(WithoutAps(), p, 22, Some(Node(DigitalCopyControl(), p, 0, None)))))
  {
    var n, c := Node(DigitalCopyControl(), p, 0, None), Masked(p[2], 4, 2);
    DigitalCopyControlLayout(p);
    CopyControlConditions(env, p, fuel - 2);
    CopyControlConditions(env, p, fuel - 4);
    OwnCaseAfterAbsent(env, n, 7, "without_APS", WithoutAps(), NotEqual(Attr("copy_control_type"), 1),
      WithAps(), CopyControlIs(1), 22, c != 1, fuel);
  }

  /**
   * Exactly one of the two APS case tables is present, and whichever it is
   * reads the two bits from bit 22.
   */
  lemma ApsTablesExclusive(env: Env, p: seq<uint8>, fuel: nat)
    requires fuel >= 10 && |p| >= 3
    ensures (Get(env, Node(DigitalCopyControl(), p, 0, None), "with_APS", fuel) == Ok(NoneValue)) !=
            (Get(env, Node(DigitalCopyControl(), p, 0, None), "without_APS", fuel) == Ok(NoneValue))
    ensures Get(env, Node(DigitalCopyControl(), p, 0, None), "with_APS", fuel) == Ok(NoneValue) ||
      Get(env, Node(DigitalCopyControl(), p, 0, None), "with_APS", fuel) == Ok(Child(Node(WithAps(), p, 22, Some(Node(DigitalCopyControl(), p, 0, None)))))
    ensures Get(env, Node(DigitalCopyControl(), p, 0, None), "without_APS", fuel) == Ok(NoneValue) ||
      Get(env, Node(DigitalCopyControl(), p, 0, None), "without_APS", fuel) == Ok(Child(Node(WithoutAps(), p, 22, Some(Node(DigitalCopyControl(), p, 0, None)))))
  {
    WithApsPresence(env, p, fuel);
    WithoutApsPresence(env, p, fuel);
  }

  /** `APS_control_data` of a present `with_APS` is the last two bits of byte 2: `p[2] & 3`. */
  lemma ApsControlData(env: Env, p: seq<uint8>, fuel: nat)
    requires fuel >= 4 && |p| >= 3
    ensures Get(env, Node(WithAps(), p, 22, Some(Node(DigitalCopyControl(), p, 0, None))), "APS_control_data", fuel) ==
      Ok(Int(Masked(p[2], 2, 0)))
  {
    DigitalCopyControlLayout(p);
    OwnBitsInByteRead(env, Node(WithAps(), p, 22, Some(Node(DigitalCopyControl(), p, 0, None))), 0, "APS_control_data", 2, 22, 2, 6, fuel);
  }

  /** Where the audio component's length and language flag sit. */
  lemma AudioComponentLayout(p: seq<uint8>)
    ensures FixedField(Node(AudioComponent(), p, 0, None), 1, "descriptor_length", 8, 8)
    ensures FixedField(Node(AudioComponent(), p, 0, None), 8, "ES_multi_lingual_flag", 1, 56)
    ensures AudioComponent().fields[15] == Field("audio_text", AribStr, Computed(AudioTextLength()))
  {
  }

  /** `ES_multi_lingual_flag` is the top bit of byte 7. */
  lemma MultiLingualFlag(env: Env, p: seq<uint8>, fuel: nat)
    requires fuel >= 4 && |p| >= 8
    ensures Get(env, Node(AudioComponent(), p, 0, None), "ES_multi_lingual_flag", fuel) == Ok(Int(Masked(p[7], 8, 7)))
    ensures Masked(p[7], 8, 7) < 2
  {
    AudioComponentLayout(p);
    OwnBitsInByteRead(env, Node(AudioComponent(), p, 0, None), 8, "ES_multi_lingual_flag", 1, 56, 7, 0, fuel);
    MaskedBound(p[7], 8, 7);
  }

  /**
   * `audio_text` takes the rest of the descriptor: `descriptor_length` less
   * the 12 bytes of fixed fields when a second language code is present,
   * less 9 otherwise.
   */
  lemma AudioTextBytes(env: Env, p: seq<uint8>, fuel: nat)
    requires fuel >= 8 && |p| >= 8
    ensures RealLength(env, Node(AudioComponent(), p, 0, None), AudioComponent().fields[15], fuel) ==
      Ok(8 * (if Masked(p[7], 8, 7) == 1 then p[1] as int - 12 else p[1] as int - 9))
  {
    AudioComponentLayout(p);
    OwnChoiceLength(env, Node(AudioComponent(), p, 0, None), AudioComponent().fields[15],
      8, "ES_multi_lingual_flag", 1, 7, 0, 1, "descriptor_length", 1, 1, 12, 9, fuel);
  }

  /**
   * The second language code is read exactly when `audio_text` subtracts
   * its 3 bytes: the case table tests the flag for truth, the length tests
   * it for equality with 1, and a one-bit flag makes the two agree.
   */
  lemma AudioConditionsAgree(env: Env, p: seq<uint8>, fuel: nat)
    requires fuel >= 6 && |p| >= 8
    ensures Holds(env, Node(AudioComponent(), p, 0, None), Truthy(Attr("ES_multi_lingual_flag")), fuel) ==
      Holds(env, Node(AudioComponent(), p, 0, None), Equal(Attr("ES_multi_lingual_flag"), 1), fuel)
    ensures Holds(env, Node(AudioComponent(), p, 0, None), Truthy(Attr("ES_multi_lingual_flag")), fuel) ==
      Ok(Masked(p[7], 8, 7) == 1)
  {
    AudioComponentLayout(p);
    OwnFlagConditions(env, Node(AudioComponent(), p, 0, None), 8, "ES_multi_lingual_flag", 7, 0, fuel);
  }

  /** The conditional-access descriptor of the PMT test vector. */
  function TestCa(): seq<uint8>
  {
    [0x09, 0x04, 0x00, 0x05, 0xE0, 0x31]
  }

  /** It names CA system 0x05 ... */
  lemma TestCaSystemId(env: Env, fuel: nat)
    requires fuel >= 4
    ensures Get(env, Node(ConditionalAccess(), TestCa(), 0, None), "CA_system_ID", fuel) == Ok(Int(0x05))
  {
    CaSystemId(env, TestCa(), fuel);
    BigEndianPair(TestCa(), 2);
  }

  /** ... on PID 0x31. */
  lemma TestCaPid(env: Env, fuel: nat)
    requires fuel >= 4
    ensures Get(env, Node(ConditionalAccess(), TestCa(), 0, None), "CA_PID", fuel) == Ok(Int(0x31))
  {
    CaPid(env, TestCa(), fuel);
  }

  /** The digital-copy-control descriptor of the PMT test vector. */
  function TestDcc(): seq<uint8>
  {
    [0xC1, 0x01, 0x84]
  }

  /** Its copy control type is 1, so `with_APS` is present with APS data 0 and `without_APS` is absent. */
  lemma TestDccFields(env: Env, fuel: nat)
    requires fuel >= 10
    ensures Get(env, Node(DigitalCopyControl(), TestDcc(), 0, None), "copy_control_type", fuel) == Ok(Int(1))
    ensures Get(env, Node(DigitalCopyControl(), TestDcc(), 0, None), "with_APS", fuel) ==
      Ok(Child(Node(WithAps(), TestDcc(), 22, Some(Node(DigitalCopyControl(), TestDcc(), 0, None)))))
    ensures Get(env, Node(DigitalCopyControl(), TestDcc(), 0, None), "without_APS", fuel) == Ok(NoneValue)
    ensures Get(env, Node(WithAps(), TestDcc(), 22, Some(Node(DigitalCopyControl(), TestDcc(), 0, None))), "APS_control_data", fuel) ==
      Ok(Int(0))
  {
    var p := TestDcc();
    assert Pow2(4) == 16 && Pow2(2) == 4 && Pow2(0) == 1;
    assert Masked(p[2], 4, 2) == 1 && Masked(p[2], 2, 0) == 0;
    CopyControlType(env, p, fuel);
    WithApsPresence(env, p, fuel);
    WithoutApsPresence(env, p, fuel);
    ApsControlData(env, p, fuel);
  }

  /** The service-list descriptor of the NIT test vector. */
  function TestServiceList(): seq<uint8>
  {
    [0x41, 0x12, 0x5C, 0x38, 0x01, 0x5C, 0x39, 0x01, 0x5C, 0x3A, 0x01,
     0x5C, 0x3F, 0xA1, 0x5D, 0xB8, 0xC0, 0x5D, 0xB9, 0xC0]
  }

  /** A service entry at byte `j` reads its id from bytes `j`-`j+1` and its type from byte `j+2`. */
  lemma ServiceEntryFields(env: Env, p: seq<uint8>, j: nat, fuel: nat)
    requires fuel >= 4 && j + 3 <= |p|
    ensures Get(env, Node(ServiceEntry(), p, 8 * j, None), "service_id", fuel) == Ok(Int(p[j] as int * 256 + p[j + 1] as int))
    ensures Get(env, Node(ServiceEntry(), p, 8 * j, None), "service_type", fuel) == Ok(Int(p[j + 2] as int))
  {
    var n := Node(ServiceEntry(), p, 8 * j, None);
    OwnBytesRead(env, n, 0, "service_id", 8 * j, j, 2, fuel);
    OwnByteRead(env, n, 1, "service_type", 8 * (j + 2), j + 2, fuel);
    BigEndianPair(p, j);
  }

  /** Its 18 bytes hold six services. */
  lemma TestServiceListServices(env: Env, fuel: nat)
    requires fuel >= 262
    ensures Get(env, Node(ServiceList(), TestServiceList(), 0, None), "services", fuel) ==
      Ok(Children(Tiles(ServiceEntry(), TestServiceList(), 2, 6, 3)))
  {
    var p := TestServiceList();
    ServiceListServices(env, p, fuel);
    assert Strides(p[1], 3) == 6;
  }

  /** The first of them is service 0x5C38 of type 0x01. */
  lemma TestServiceListFirst(env: Env, fuel: nat)
    requires fuel >= 4
    ensures Get(env, Node(ServiceEntry(), TestServiceList(), 16, None), "service_id", fuel) == Ok(Int(0x5C38))
    ensures Get(env, Node(ServiceEntry(), TestServiceList(), 16, None), "service_type", fuel) == Ok(Int(0x01))
  {
    ServiceEntryFields(env, TestServiceList(), 2, fuel);
  }

  /** The last of them is service 0x5DB9 of type 0xC0. */
  lemma TestServiceListLast(env: Env, fuel: nat)
    requires fuel >= 4
    ensures Get(env, Node(ServiceEntry(), TestServiceList(), 136, None), "service_id", fuel) == Ok(Int(0x5DB9))
    ensures Get(env, Node(ServiceEntry(), TestServiceList(), 136, None), "service_type", fuel) == Ok(Int(0xC0))
  {
    ServiceEntryFields(env, TestServiceList(), 17, fuel);
  }

  /** The terrestrial-delivery descriptor of the NIT test vector. */
  function TestTerrestrial(): seq<uint8>
  {
    [0xFA, 0x18, 0xAA, 0xCA, 0x0E, 0x16, 0x0F, 0xBA, 0x11, 0x88, 0x0D, 0x98, 0x10,
     0x62, 0x0F, 0x90, 0x10, 0x38, 0x11, 0x5E, 0x0D, 0x1A, 0x0D, 0x6E, 0x13, 0x02]
  }

  /** A frequency entry at byte `j` reads bytes `j`-`j+1`. */
  lemma FrequencyEntryField(env: Env, p: seq<uint8>, j: nat, fuel: nat)
    requires fuel >= 4 && j + 2 <= |p|
    ensures Get(env, Node(FrequencyEntry(), p, 8 * j, None), "frequency", fuel) == Ok(Int(p[j] as int * 256 + p[j + 1] as int))
  {
    OwnBytesRead(env, Node(FrequencyEntry(), p, 8 * j, None), 0, "frequency", 8 * j, j, 2, fuel);
    BigEndianPair(p, j);
  }

  /** Its guard interval and transmission mode are both 2. */
  lemma TestTerrestrialModes(env: Env, fuel: nat)
    requires fuel >= 4
    ensures Get(env, Node(TerrestrialDelivery(), TestTerrestrial(), 0, None), "guard_interval", fuel) == Ok(Int(2))
    ensures Get(env, Node(TerrestrialDelivery(), TestTerrestrial(), 0, None), "transmission_mode", fuel) == Ok(Int(2))
  {
    var p := TestTerrestrial();
    var n := Node(TerrestrialDelivery(), p, 0, None);
    assert Pow2(4) == 16 && Pow2(2) == 4 && Pow2(0) == 1;
    assert Masked(p[3], 4, 2) == 2 && Masked(p[3], 2, 0) == 2;
    OwnBitsInByteRead(env, n, 3, "guard_interval", 2, 28, 3, 4, fuel);
    OwnBitsInByteRead(env, n, 4, "transmission_mode", 2, 30, 3, 6, fuel);
  }

  /** Its 22 bytes of frequencies are eleven entries. */
  lemma TestTerrestrialFreqs(env: Env, fuel: nat)
    requires fuel >= 262
    ensures Get(env, Node(TerrestrialDelivery(), TestTerrestrial(), 0, None), "freqs", fuel) ==
      Ok(Children(Tiles(FrequencyEntry(), TestTerrestrial(), 4, 11, 2)))
  {
    var p := TestTerrestrial();
    TerrestrialFreqs(env, p, fuel);
    assert Strides(p[1] as int - 2, 2) == 11;
  }

  /** The first frequency is 0x0E16 and the last 0x1302. */
  lemma TestTerrestrialFreqEnds(env: Env, fuel: nat)
    requires fuel >= 4
    ensures Get(env, Node(FrequencyEntry(), TestTerrestrial(), 32, None), "frequency", fuel) == Ok(Int(0x0E16))
    ensures Get(env, Node(FrequencyEntry(), TestTerrestrial(), 192, None), "frequency", fuel) == Ok(Int(0x1302))
  {
    FrequencyEntryField(env, TestTerrestrial(), 4, fuel);
    FrequencyEntryField(env, TestTerrestrial(), 24, fuel);
  }
}
