/**
 * The descriptors of a data carousel's download information indication
 * (ariblib/diidescriptors.py): a registry of their own, filled by the same
 * kind of `@tag` as the section descriptors and falling back to the base
 * `diiDescriptor`, walked by the same descriptor-list field (a
 * `DescriptorList(true)` field consults `Env.dii`), and the layouts of the
 * registered descriptors.
 */
module DiiDescriptors {
  import opened Wrappers
  import opened Bits
  import opened Schema
  import Descriptors

  function U(name: string, bits: nat): Field
  {
    Descriptors.U(name, bits)
  }

  /** `diiDescriptor`: tag, length, and the body read as one integer of `descriptor_length` bytes. */
  function BaseDii(): Class
  {
    Class("diiDescriptor", [U("descriptor_tag", 8), U("descriptor_length", 8),
      Field("descriptor", Uimsbf, ByField("descriptor_length"))], [], false)
  }

  /** A descriptor of the registry: tag and length, then its own fields. */
  function Dii(name: string, body: seq<Field>): Class
  {
    Class(name, [U("descriptor_tag", 8), U("descriptor_length", 8)] + body, BaseDii().fields, false)
  }

  function DescriptorLength(): Expr
  {
    Attr("descriptor_length")
  }

  /** `self.time_mode == k`. */
  function TimeModeIs(k: int): Cond
  {
    Equal(Attr("time_mode"), k)
  }

  /** 0x01 `Type_descriptor`: the text takes the whole body. */
  function TypeDescriptor(): Class
  {
    Dii("Type_descriptor", [Field("text", Char, Computed(DescriptorLength()))])
  }

  /** 0x02 `Name_descriptor`. */
  function NameDescriptor(): Class
  {
    Dii("Name_descriptor", [Field("text", Char, ByField("descriptor_length"))])
  }

  /** 0x03 `info_descriptor`: a 3-letter language code, then `descriptor_length` bytes of 8-unit text. */
  function InfoDescriptor(): Class
  {
    Dii("info_descriptor", [Field("ISO_639_language_code", Char, Literal(24)),
      Field("text_char", AribStr, ByField("descriptor_length"))])
  }

  /** 0x04 `module_link_descriptor`. */
  function ModuleLinkDescriptor(): Class
  {
    Dii("module_link_descriptor", [U("position", 8), U("moduleId", 16)])
  }

  /** 0x05 `CRC32_descriptor`. */
  function Crc32Descriptor(): Class
  {
    Dii("CRC32_descriptor", [U("CRC_32", 32)])
  }

  /** 0x07 `est_download_time_descriptor`. */
  function EstDownloadTimeDescriptor(): Class
  {
    Dii("est_download_time_descriptor", [U("est_download_time", 32)])
  }

  /** The `time_mode == 0x01` table of `Expire_descriptor` (and of `Activation_Time_descriptor`). */
  function MjdMode(name: string): Class
  {
    Class(name, [Field("MJD_JST_time", MjdTime, Literal(40))], [], false)
  }

  /** The `time_mode == 0x04` table of `Expire_descriptor`. */
  function PassedSecondsMode(): Class
  {
    Class("time_mode_0x04", [U("reserved_future_use", 8), U("passed_seconds", 32)], [], false)
  }

  /** 0xC0 `Expire_descriptor`: after `time_mode`, a 40-bit MJD time for mode 1, 8 reserved bits and 32-bit seconds for mode 4. */
  function ExpireDescriptor(): Class
  {
    Class("Expire_descriptor", [U("descriptor_tag", 8), U("descriptor_length", 8), U("time_mode", 8),
      Field("time_mode_0x01", Case(MjdMode("time_mode_0x01"), TimeModeIs(1)), Nested),
      Field("time_mode_0x04", Case(PassedSecondsMode(), TimeModeIs(4)), Nested)], BaseDii().fields, false)
  }

  /** The `time_mode == 0x02` table of `Activation_Time_descriptor`. */
  function NptMode(): Class
  {
    Class("time_mode_0x02", [U("reserved_future_use", 7), U("NPT_time", 33)], [], false)
  }

  /** The `time_mode == 0x03` table of `Activation_Time_descriptor`. */
  function NptLongMode(): Class
  {
    Class("time_mode_0x03", [U("reserved_future_use", 4), U("NPT_time", 36)], [], false)
  }

  /** 0xC1 `Activation_Time_descriptor`: MJD time for modes 1 and 5, NPT time for modes 2 and 3. */
  function ActivationTimeDescriptor(): Class
  {
    Class("Activation_Time_descriptor", [U("descriptor_tag", 8), U("descriptor_length", 8), U("time_mode", 8),
      Field("time_mode_0x01", Case(MjdMode("time_mode_0x01"), TimeModeIs(1)), Nested),
      Field("time_mode_0x05", Case(MjdMode("time_mode_0x05"), TimeModeIs(5)), Nested),
      Field("time_mode_0x02", Case(NptMode(), TimeModeIs(2)), Nested),
      Field("time_mode_0x03", Case(NptLongMode(), TimeModeIs(3)), Nested)], BaseDii().fields, false)
  }

  /** 0xC2 `Compression_Type_descriptor`. */
  function CompressionTypeDescriptor(): Class
  {
    Dii("Compression_Type_descriptor", [U("compression_type", 8), U("original_size", 32)])
  }

  /** One entry of `Control_descriptor.control_data_bytes`. */
  function ControlByte(): Class
  {
    Class("control_data_bytes", [U("control_data_byte", 8)], [], false)
  }

  /** 0xC3 `Control_descriptor`: one-byte entries filling `descriptor_length` bytes. */
  function ControlDescriptor(): Class
  {
    Dii("Control_descriptor", [Field("control_data_bytes", SizeLoop(ControlByte()), Computed(DescriptorLength()))])
  }

  /** One entry of `Provider_Private_descriptor.private_bytes`. */
  function PrivateByte(): Class
  {
    Class("private_bytes", [U("private_byte", 8)], [], false)
  }

  /** 0xC4 `Provider_Private_descriptor`: scope type and identifier, then one-byte entries filling the other `descriptor_length - 5` bytes. */
  function ProviderPrivateDescriptor(): Class
  {
    Class("Provider_Private_descriptor", [U("descriptor_tag", 8), U("descriptor_length", 8),
      U("private_scope_type", 8), U("scope_identifier", 32),
      Field("private_bytes", SizeLoop(PrivateByte()), Computed(Minus(DescriptorLength(), Lit(5))))], BaseDii().fields, false)
  }

  /** 0xC5 `store_root_descriptor`: a 1-bit update type, 7 reserved bits, then a path of `descriptor_length - 1` characters. */
  function StoreRootDescriptor(): Class
  {
    Class("store_root_descriptor", [U("descriptor_tag", 8), U("descriptor_length", 8),
      U("update_type", 1), U("reserved", 7),
      Field("store_root_path", Char, Computed(Minus(DescriptorLength(), Lit(1))))], BaseDii().fields, false)
  }

  /** 0xC6 `subdirectory_descriptor`. */
  function SubdirectoryDescriptor(): Class
  {
    Dii("subdirectory_descriptor", [Field("subdirectory_path", Char, ByField("descriptor_length"))])
  }

  /** 0xC7 `title_descriptor`: a language code, then `descriptor_length - 3` bytes of 8-unit text. */
  function TitleDescriptor(): Class
  {
    Dii("title_descriptor", [U("ISO_639_language_code", 24),
      Field("text_char", AribStr, Computed(Minus(DescriptorLength(), Lit(3))))])
  }

  /** 0xC8 `data_encoding_descriptor`: a component id, then `descriptor_length - 2` raw bytes. */
  function DataEncodingDescriptor(): Class
  {
    Dii("data_encoding_descriptor", [U("data_compoent_id", 16),
      Field("additional_data_encoding_info", Raw, Computed(Minus(DescriptorLength(), Lit(2))))])
  }

  /**
   * 0xCA `root_cetificate_descriptor`: a 1-bit certificate type and 7 reserved
   * bits. Its two certificate tables stack `@case` on `@loop` and are not
   * part of the layout here.
   */
  function RootCertificateDescriptor(): Class
  {
    Class("root_cetificate_descriptor", [U("descriptor_tag", 8), U("descriptor_length", 8),
      U("root_certificate_type", 1), U("reserved", 7)], BaseDii().fields, false)
  }

  /** The registrations `@tag` makes as the module is imported, in declaration order. */
  function DiiDeclarations(): seq<(int, Class)>
  {
    [(0x01, TypeDescriptor()), (0x02, NameDescriptor()), (0x03, InfoDescriptor()), (0x04, ModuleLinkDescriptor()),
     (0x05, Crc32Descriptor()), (0x07, EstDownloadTimeDescriptor()), (0xC0, ExpireDescriptor()),
     (0xC1, ActivationTimeDescriptor()), (0xC2, CompressionTypeDescriptor()), (0xC3, ControlDescriptor()),
     (0xC4, ProviderPrivateDescriptor()), (0xC5, StoreRootDescriptor()), (0xC6, SubdirectoryDescriptor()),
     (0xC7, TitleDescriptor()), (0xC8, DataEncodingDescriptor()), (0xCA, RootCertificateDescriptor())]
  }

  /** The module-local `tags` and the fallback of `diiDescriptor.get`. */
  function DiiRegistry(): Registry
  {
    Registry(Descriptors.Registered(DiiDeclarations()), BaseDii())
  }

  /** The tags are declared in increasing order. */
  predicate IncreasingTags(decls: seq<(int, Class)>)
  {
    forall i :: 0 <= i < |decls| - 1 ==> decls[i].0 < decls[i + 1].0
  }

  /** Tags declared in increasing order are all different. */
  lemma {:induction false} IncreasingTagsDistinct(decls: seq<(int, Class)>, j: nat, k: nat)
    requires IncreasingTags(decls) && j < k < |decls|
    ensures decls[j].0 < decls[k].0
    decreases k - j
  {
    if j + 1 < k {
      IncreasingTagsDistinct(decls, j + 1, k);
    }
  }

  /**
   * `diiDescriptor.get(tag)`: a declared tag finds the class declared for
   * it, and a tag never declared finds the base `diiDescriptor`.
   */
  lemma DiiRegistryLookup(t: int)
    ensures forall j :: 0 <= j < |DiiDeclarations()| && DiiDeclarations()[j].0 == t ==>
      ClassForTag(DiiRegistry(), t) == DiiDeclarations()[j].1
    ensures (forall j :: 0 <= j < |DiiDeclarations()| ==> DiiDeclarations()[j].0 != t) ==>
      ClassForTag(DiiRegistry(), t) == BaseDii()
  {
    var decls := DiiDeclarations();
    assert IncreasingTags(decls);
    Descriptors.RegisteredLast(decls, t);
    forall j | 0 <= j < |decls| && decls[j].0 == t
      ensures ClassForTag(DiiRegistry(), t) == decls[j].1
    {
      forall k | j < k < |decls|
        ensures decls[k].0 != t
      {
        IncreasingTagsDistinct(decls, j, k);
      }
    }
  }

  /** Tags 0xC0, 0xC4, 0xC5 and 0xCA find their layouts; 0x06, never declared, finds the base. */
  lemma DiiRegistryExamples()
    ensures ClassForTag(DiiRegistry(), 0xC0) == ExpireDescriptor()
    ensures ClassForTag(DiiRegistry(), 0xC4) == ProviderPrivateDescriptor()
    ensures ClassForTag(DiiRegistry(), 0xC5) == StoreRootDescriptor()
    ensures ClassForTag(DiiRegistry(), 0xCA) == RootCertificateDescriptor()
    ensures ClassForTag(DiiRegistry(), 0x06) == BaseDii()
  {
    var decls := DiiDeclarations();
    DiiRegistryLookup(0xC0);
    DiiRegistryLookup(0xC4);
    DiiRegistryLookup(0xC5);
    DiiRegistryLookup(0xCA);
    DiiRegistryLookup(0x06);
    assert decls[6].0 == 0xC0 && decls[10].0 == 0xC4 && decls[11].0 == 0xC5 && decls[15].0 == 0xCA;
  }

  /** Where the fixed fields of `Expire_descriptor` sit, and its two tables. */
  lemma ExpireLayout(p: seq<uint8>)
    ensures FixedField(Node(ExpireDescriptor(), p, 0, None), 2, "time_mode", 8, 16)
    ensures CaseField(Node(ExpireDescriptor(), p, 0, None), 3, "time_mode_0x01", MjdMode("time_mode_0x01"), TimeModeIs(1))
    ensures CaseField(Node(ExpireDescriptor(), p, 0, None), 4, "time_mode_0x04", PassedSecondsMode(), TimeModeIs(4))
    ensures FixedPrefix(ExpireDescriptor().fields, 3) && PrefixWidth(ExpireDescriptor().fields, 3) == 24
  {
  }

  /** `time_mode == k` holds exactly when byte 2 is `k`. */
  lemma TimeModeConditions(env: Env, p: seq<uint8>, k: int, fuel: nat)
    requires fuel >= 6 && |p| >= 3
    ensures Holds(env, Node(ExpireDescriptor(), p, 0, None), TimeModeIs(k), fuel) == Ok(p[2] as int == k)
  {
    ExpireLayout(p);
    OwnByteRead(env, Node(ExpireDescriptor(), p, 0, None), 2, "time_mode", 16, 2, fuel - 2);
    EqualityConditions(env, Node(ExpireDescriptor(), p, 0, None), "time_mode", k, p[2] as int, fuel);
  }

  /** The MJD table is present, from byte 3, exactly when `time_mode` is 1. */
  lemma ExpireMjdPresence(env: Env, p: seq<uint8>, fuel: nat)
    requires fuel >= 8 && |p| >= 3
    ensures Get(env, Node(ExpireDescriptor(), p, 0, None), "time_mode_0x01", fuel) ==
      if p[2] == 1 then Ok(Child(Node(MjdMode("time_mode_0x01"), p, 24, Some(Node(ExpireDescriptor(), p, 0, None)))))
      else Ok(NoneValue)
  {
    var n := Node(ExpireDescriptor(), p, 0, None);
    ExpireLayout(p);
    TimeModeConditions(env, p, 1, fuel - 2);
    OwnCaseAfterFixed(env, n, 3, "time_mode_0x01", MjdMode("time_mode_0x01"), TimeModeIs(1), 24, p[2] == 1, fuel);
  }

  /** The seconds table is present, also from byte 3, exactly when `time_mode` is 4. */
  lemma ExpireSecondsPresence(env: Env, p: seq<uint8>, fuel: nat)
    requires fuel >= 10 && |p| >= 3
    ensures Get(env, Node(ExpireDescriptor(), p, 0, None), "time_mode_0x04", fuel) ==
      if p[2] == 4 then Ok(Child(Node(PassedSecondsMode(), p, 24, Some(Node(ExpireDescriptor(), p, 0, None)))))
      else Ok(NoneValue)
  {
    var n := Node(ExpireDescriptor(), p, 0, None);
    ExpireLayout(p);
    TimeModeConditions(env, p, 4, fuel - 2);
    TimeModeConditions(env, p, 1, fuel - 4);
    OwnCaseAfterAbsent(env, n, 4, "time_mode_0x04", PassedSecondsMode(), TimeModeIs(4),
                       MjdMode("time_mode_0x01"), TimeModeIs(1), 24, p[2] == 4, fuel);
  }

  /** In the seconds table from byte 3, `passed_seconds` is bytes 4 to 7, after the reserved byte. */
  lemma PassedSeconds(env: Env, p: seq<uint8>, parent: Option<Node>, fuel: nat)
    requires fuel >= 4 && |p| >= 8
    ensures Get(env, Node(PassedSecondsMode(), p, 24, parent), "passed_seconds", fuel) == Ok(Int(BigEndian(p[4..8])))
  {
    var n := Node(PassedSecondsMode(), p, 24, parent);
    assert FixedField(n, 1, "passed_seconds", 32, 32);
    OwnBytesRead(env, n, 1, "passed_seconds", 32, 4, 4, fuel);
  }

  /** Where `descriptor_length` and the private-byte loop of `Provider_Private_descriptor` sit. */
  lemma ProviderPrivateLayout(p: seq<uint8>)
    requires |p| >= 2
    ensures ByteStrideField(Node(ProviderPrivateDescriptor(), p, 0, None), 1, "descriptor_length", 1, 4, "private_bytes", PrivateByte(), 56, 1, 5)
  {
  }

  /**
   * `private_bytes`: one entry per byte from byte 7, as many as
   * `descriptor_length - 5` (none when that is not positive).
   */
  lemma ProviderPrivateBytes(env: Env, p: seq<uint8>, fuel: nat)
    requires |p| >= 2 && fuel >= 260
    ensures Get(env, Node(ProviderPrivateDescriptor(), p, 0, None), "private_bytes", fuel) ==
      Ok(Children(Tiles(PrivateByte(), p, 7, Strides(p[1] as int - 5, 1), 1)))
  {
    ProviderPrivateLayout(p);
    OwnByteMinusStride(env, Node(ProviderPrivateDescriptor(), p, 0, None), 1, "descriptor_length", 1, 4, "private_bytes",
                       PrivateByte(), 56, 1, 5, fuel);
    assert 56 / 8 == 7;
  }

  /** Where the fields of `store_root_descriptor` sit. */
  lemma StoreRootLayout(p: seq<uint8>)
    ensures FixedField(Node(StoreRootDescriptor(), p, 0, None), 1, "descriptor_length", 8, 8)
    ensures FixedField(Node(StoreRootDescriptor(), p, 0, None), 2, "update_type", 1, 16)
    ensures StoreRootDescriptor().fields[4] == Field("store_root_path", Char, Computed(Minus(DescriptorLength(), Lit(1))))
  {
  }

  /** `update_type` is the top bit of byte 2. */
  lemma StoreRootUpdateType(env: Env, p: seq<uint8>, fuel: nat)
    requires fuel >= 4 && |p| >= 3
    ensures Get(env, Node(StoreRootDescriptor(), p, 0, None), "update_type", fuel) == Ok(Int(Masked(p[2], 8, 7)))
  {
    StoreRootLayout(p);
    OwnBitsInByteRead(env, Node(StoreRootDescriptor(), p, 0, None), 2, "update_type", 1, 16, 2, 0, fuel);
  }

  /** The path takes the rest of the descriptor: `descriptor_length - 1` bytes. */
  lemma StoreRootPathLength(env: Env, p: seq<uint8>, fuel: nat)
    requires fuel >= 7 && |p| >= 2
    ensures RealLength(env, Node(StoreRootDescriptor(), p, 0, None), StoreRootDescriptor().fields[4], fuel) ==
      Ok(8 * (p[1] as int - 1))
  {
    StoreRootLayout(p);
    OwnByteMinusLength(env, Node(StoreRootDescriptor(), p, 0, None), 1, "descriptor_length", 1,
                       StoreRootDescriptor().fields[4], 1, fuel);
  }

  /** Where the fields of `root_cetificate_descriptor` sit. */
  lemma RootCertificateLayout(p: seq<uint8>)
    ensures FixedField(Node(RootCertificateDescriptor(), p, 0, None), 1, "descriptor_length", 8, 8)
    ensures FixedField(Node(RootCertificateDescriptor(), p, 0, None), 2, "root_certificate_type", 1, 16)
    ensures FixedField(Node(RootCertificateDescriptor(), p, 0, None), 3, "reserved", 7, 17)
  {
  }

  /** `root_certificate_type` is the top bit of byte 2. */
  lemma RootCertificateType(env: Env, p: seq<uint8>, fuel: nat)
    requires fuel >= 4 && |p| >= 3
    ensures Get(env, Node(RootCertificateDescriptor(), p, 0, None), "root_certificate_type", fuel) == Ok(Int(Masked(p[2], 8, 7)))
  {
    RootCertificateLayout(p);
    OwnBitsInByteRead(env, Node(RootCertificateDescriptor(), p, 0, None), 2, "root_certificate_type", 1, 16, 2, 0, fuel);
  }
}
