# ariblib core in Dafny

A verified model of the core of ariblib, a Python library that reads ISDB
(ARIB) MPEG-2 transport streams. It splits streams into 188-byte packets,
reassembles the PSI sections each PID carries, and decodes them through a
declarative layout engine. It also decodes ARIB STD-B24 8-unit text.

The model has one Dafny module per part of the library:

- **Bits, Slices, Text, Wrappers**: the groundwork.
  - Python's bitwise operators on non-negative integers, its never-failing slices and its whitespace stripping.
  - `Option`/`Result` for `None` returns and raised exceptions.
  - The big-endian bit extractor `uimsbf.uimsbf` of `mnemonics.py`, proved equal to an independent bit-by-bit reading.
- **Schema, SyntaxDecl, Memo, Bcd**: the layout engine of `mnemonics.py` and `syntax.py`.
  - A layout class is a list of fields in declaration order. A field's start is the instance's position plus the real lengths of the fields before it.
  - Field kinds: fixed widths, spans, fixed-size and fixed-count loops, case tables, BCD fields and the date/time sentinels.
  - The `__getattr__` chain searches the case tables and then the parent.
  - The instance caches of `@cache` and `meta_cache`.
  - How `SyntaxDict` records the fields of a class body.
- **Packet, Adaptation**: the header accessors of `packet.py`, the payload split at the pointer field, the adaptation-field flags and the integer PCR base.
- **Reassembly, Dispatch, SectionClasses**: `TransportStreamFile.sections` over an explicit sequence of packets.
  - It keeps per-PID buffers and drains them on every unit start.
  - The end-of-stream flush uses the `isfull` check and the table ids of the last PID processed, both as written.
  - The tables that send a (PID, table id) pair to a section class come from the `_pids`/`_table_ids` class attributes, resolved along each class's bases.
- **Sections, Descriptors, DiiDescriptors**: the PAT, PMT, NIT and SDT layouts of `sections.py` and the PAT/PMT generators.
  - The descriptor-list walkers and their tag registries.
  - The descriptor layouts of `descriptors.py` and `diidescriptors.py` that the model covers.
- **Aribstr**: the `CodeSetController` and `AribString.convert` of `aribstr.py`.
  - These are classes whose methods are proved against functions on their state.
  - The output is the ISO-2022-JP byte stream the decoder builds.
- **Walkers**: the generators of the later byte-level API in `descriptor.py`, `pat.py`, `pmt.py` and `eit.py`.
- **Split**: the helpers of `command/split.py`.
  - The bit generator.
  - The bit-serial MPEG-2 CRC-32 as a `bv32` register.
  - The PAT rewrite that keeps only its first program.
- **Service, Table, Event**: the helpers of `service.py`, `table.py` and `event.py`.
  - Service: the fields of a transport_stream_id, the tuner channel name and the parsing of a channel name.
  - Table: the handler registry.
  - Event: the extended-event merge.

Where the code departs from what it evidently means, the model keeps the code as written and a corrected version beside it. There are six such pairs, each a row of "## Findings":

- `Packet.TransportPriorityAsWritten` and `Packet.TransportPriority`: the accessor's misspelt parameter.
- `Reassembly.IsFullAsWritten` and `Reassembly.IsFull`: the `isfull` comparison. The end-of-stream flush (`Reassembly.FlushFrom`) takes either, and `Reassembly.FlushWrittenCoversIntended` relates the two.
- `Service.NewFieldAsWritten` and `Service.NewField`: the mask `0x0E000` against `0x0E00`. `Service.ParseTsid` and `Service.ParseTsidIntended` parse a transport_stream_id with each.
- `Descriptors.CopyrightAsWritten` and `Descriptors.Copyright`: the missing `descriptor_tag`.
- `SectionClasses.OtherSdtDeclAsWritten` and `SectionClasses.OtherSdtDecl`: the misspelt `_table_ids`.
- `Walkers.PatSections` and `Walkers.PatSectionsIntended`: the PAT generator that also yields the CRC_32.

## Model

| member | source | states |
|---|---|---|
| Bits.Uimsbf | ariblib/mnemonics.py:86-99 | the extractor, written with the source's two branches; its value has at most `length` bits (`< 2^length`) |
| Bits.MaskedBound | ariblib/mnemonics.py:93-96 | the single-byte branch yields a `pos - shift` bit number |
| Bits.MaskedIsAndShift | ariblib/mnemonics.py:94-96 | the arithmetic field value is the source's `(x & (2^pos - 2^shift)) >> shift` |
| Bits.UimsbfOneByte | ariblib/mnemonics.py:90-96 | a read inside one byte is that byte masked and shifted by `pos = 8 - index % 8`, `shift = pos - length` |
| Bits.UimsbfTwoParts | ariblib/mnemonics.py:98-99 | a read crossing a byte boundary is the head up to the boundary shifted over the rest (`uimsbf(i, pos) << (n - pos) | uimsbf(i + pos, n - pos)`) |
| Bits.UimsbfIsBitString | ariblib/mnemonics.py:86-99 | the extractor equals an independent bit-by-bit reference on every input |
| Bits.UimsbfSplit | ariblib/mnemonics.py:98-99 | the two-part branch agrees with the bit-by-bit reference |
| Bits.UimsbfConcat | ariblib/mnemonics.py:86-99 | concatenation law: `uimsbf(i, a + b) == uimsbf(i, a) * 2^b + uimsbf(i + a, b)` for every split point |
| Bits.BitStringConcat | ariblib/mnemonics.py:86-99 | the same concatenation law for the bit-by-bit reference |
| Bits.UimsbfFrame | ariblib/mnemonics.py:90-99 | the extractor reads only bytes `i / 8 .. (i + n - 1) / 8`: inputs agreeing there give the same value |
| Bits.BitStringFrame | ariblib/mnemonics.py:90-99 | the reference reads only the bytes holding its bits |
| Bits.UimsbfBigEndian | ariblib/mnemonics.py:86-99 | a byte-aligned read of whole bytes is their big-endian value |
| Bits.BitStringBigEndian | ariblib/mnemonics.py:86-99 | the reference over whole bytes is their big-endian value |
| Bits.ByteAt | ariblib/mnemonics.py:93-96 | an aligned 8-bit read is the byte itself |
| Bits.UimsbfEightBytes | tests/sections/test_pmt.py:97-100 | the 64-bit read of `33 3F 00 03 00 03 FF BF` is `0x333F00030003FFBF` |
| Bits.EightBytesBigEndian | tests/sections/test_pmt.py:97-100 | the big-endian value of the same eight bytes |
| Bits.UimsbfDrop | ariblib/mnemonics.py:86-99 | reading a sub-slice that starts after `k` bytes is reading the whole string at bit offset `8 k + i` |
| Bits.BitStringDrop | ariblib/mnemonics.py:86-99 | the same shift of offset for the reference |
| Bits.Pid13 | ariblib/packet.py:203-205 | a 13-bit PID `((b[k] & 0x1F) << 8) | b[k + 1]` is below 8192 |
| Bits.PidBitsAt | ariblib/pmt.py:29-30 | the 13-bit PID expression is the schema's 13-bit read at bit `8 k + 3` |
| Bits.Low12 | ariblib/pat.py:13 | a 12-bit length `((b[k] & 0x0F) << 8) | b[k + 1]` is below 4096 |
| Bits.Low12BitsAt | ariblib/pat.py:13 | the 12-bit length expression is the schema's 12-bit read at bit `8 k + 4` |
| Bits.BigEndianPair | ariblib/eit.py:27-28 | two bytes read big-endian are `b[j] * 256 + b[j + 1]` |
| Bcd.Bcd2IntIsSourceExpression | ariblib/parse.py:50-53 | the decoded number is the source's `((b & 0xF0) >> 4) * 10 + (b & 0x0F)` |
| Bcd.Bcd2IntDigits | ariblib/mnemonics.py:353-356 | a valid BCD byte decodes to a number below 100 whose tens and units digits are its nibbles |
| Bcd.Bcd2IntToBcd | ariblib/parse.py:50-53 | decoding inverts BCD encoding of every number below 100 |
| Bcd.ToBcdBcd2Int | ariblib/parse.py:50-53 | encoding inverts decoding on every valid BCD byte |
| Bcd.BcdValue | ariblib/parse.py:15-20 | the fold fails (as `reduce` over no items raises) exactly on empty input |
| Bcd.BcdValueDecimal | ariblib/mnemonics.py:139-147 | on valid BCD bytes the fold `x * 100 + bcd2int(y)` is the decimal number spelled by the digit pairs, below `100^len` |
| Bcd.Digits | ariblib/mnemonics.py:145 | every byte is mapped to its decoded pair, position by position |
| Bcd.BcdTime | ariblib/parse.py:23-29 | an error unless there are three bytes; `None` exactly for `FF FF FF`; otherwise hours, minutes and seconds decoded byte by byte |
| Bcd.BcdTimeRoundTrip | ariblib/mnemonics.py:150-163 | a time whose parts are below 100, BCD-encoded, decodes back to itself |
| Bcd.Mjd | ariblib/parse.py:7-12 | `None` exactly for five `FF` bytes; an error exactly when fewer than two bytes are left otherwise; the day number is 16-bit |
| Bcd.MjdDayIsSourceExpression | ariblib/mnemonics.py:335-339 | the day number is `(p[0] << 8) | p[1]` and the 16-bit read at bit 0 |
| Adaptation.FlagIsBit | ariblib/adaptation.py:7-52 | flag `k` is 0 or 1 and is the one-bit read at bit `8 + k` |
| Adaptation.FlagIsSourceExpression | ariblib/adaptation.py:7-52 | flags 0 to 6 are `(p[1] & 2^(7-k)) >> (7-k)`, flag 7 is `p[1] & 0x01` |
| Adaptation.FlagSumTopBits | ariblib/adaptation.py:7-52 | the weighted sum of the first `n` flags is the top `n` bits of the flag byte |
| Adaptation.FlagsRebuildByte | ariblib/adaptation.py:7-52 | the eight flags, weighted by `2^(7-k)`, rebuild `p[1]` |
| Adaptation.OnlyPcrFlag | tests/test_adaptation.py:8-43 | for the test field (`B7 10 ...`) the length is 0xB7 and only `PCR_flag` is 1 |
| Text.StripRight | ariblib/aribstr.py:206-207 | `rstrip`: the result is a prefix that does not end in whitespace, and only whitespace was removed |
| Text.StripLeft | ariblib/service.py:69-79 | `lstrip`: the result is a suffix that does not start with whitespace, and only whitespace was removed |
| Bcd.Bcd2Int | ariblib/parse.py:50-53 | `bcd2int`: the high nibble as the tens digit and the low nibble as the units digit; `Bcd.Bcd2IntIsSourceExpression` ties it to the source's mask-and-shift |
| Adaptation.AdaptationFieldLength | ariblib/adaptation.py:1-4 | `adaptation_field_length(p)`: byte 0 of the field |
| Adaptation.Flag | ariblib/adaptation.py:7-52 | flag `k` of the eight: bit `7 - k` of byte 1, most significant first; `Adaptation.FlagIsSourceExpression` ties each to its mask-and-shift |
| Adaptation.DiscontinuityIndicator | ariblib/adaptation.py:7-10 | `discontinuity_indicator(p)`: flag 0, the top bit of byte 1 |
| Adaptation.RandomAccessIndicator | ariblib/adaptation.py:13-16 | `random_access_indicator(p)`: flag 1 of byte 1 |
| Adaptation.ElementaryStreamPriorityIndicator | ariblib/adaptation.py:19-22 | `elementary_stream_priority_indicator(p)`: flag 2 of byte 1 |
| Adaptation.PcrFlag | ariblib/adaptation.py:25-28 | `PCR_flag(p)`: flag 3 of byte 1 |
| Adaptation.OpcrFlag | ariblib/adaptation.py:31-34 | `OPCR_flag(p)`: flag 4 of byte 1 |
| Adaptation.SplicingPointFlag | ariblib/adaptation.py:37-40 | `splicing_point_flag(p)`: flag 5 of byte 1 |
| Adaptation.TransportPrivateDataFlag | ariblib/adaptation.py:43-46 | `transport_private_data_flag(p)`: flag 6 of byte 1 |
| Adaptation.AdaptationFieldExtensionFlag | ariblib/adaptation.py:49-52 | `adaptation_field_extension_flag(p)`: flag 7, the lowest bit of byte 1 |
| Packet.HeaderFields | ariblib/packet.py:188-224 | every header accessor is the schema read of its bit range (bits 8, 9, 11-23, 24-25, 26, 27, 28-31) and is below `2^width` |
| Packet.PidField | ariblib/packet.py:203-205 | the PID is the 13-bit read at bit 11 |
| Packet.PidIsSourceExpression | ariblib/packet.py:203-205 | the PID is the source's `((packet[1] & 0x1F) << 8) | packet[2]` |
| Packet.HeaderExample | tests/test_packet.py:26-48 | header `47 60 00 19`: no error, start indicator 1, PID 0, no adaptation field, payload 1, counter 9 |
| Packet.TransportPriorityAsWritten | ariblib/packet.py:198-200 | as written the accessor reads an undefined name and always fails |
| Packet.TransportPriorityExample | ariblib/packet.py:198-200 | the intended accessor reads bit 10 (1 for `.. 60 ..`), where the code as written fails |
| Packet.PayloadOffset | ariblib/packet.py:252-256 | the payload starts at byte 4 or later; it cannot be located exactly when an adaptation field is flagged but byte 4 is missing |
| Packet.PayloadNoPointer | ariblib/packet.py:258-263 | without the start indicator, or at a `00 00 01` prefix, the payload is `('', packet[start:])`; a start packet with no pointer byte fails |
| Packet.SplitAtPointerTail | ariblib/packet.py:265-268 | the pointer split keeps every byte: `prev + current == packet[start + 1:]`, with `prev` at most `pointer` bytes |
| Packet.PayloadIsTail | ariblib/packet.py:249-268 | on a start packet with a pointer field, `payload` returns the two parts of `packet[start + 1:]` |
| Packet.PayloadEmptyParts | ariblib/packet.py:249-259 | with the payload bit clear both parts are empty; without the start indicator `prev` is empty |
| Packet.AdaptationFieldBytes | ariblib/packet.py:227-236 | no field when the adaptation bit is clear; otherwise the field starts with its length byte `packet[4]` and holds at most `1 + packet[4]` bytes |
| Packet.PayloadAfterAdaptation | ariblib/packet.py:233-256 | with an adaptation field the payload starts right after it, at `5 + adaptation_field_length` |
| Packet.PcrOfPacket | ariblib/packet.py:175-179 | a packet yields a PCR exactly when it has an adaptation field and bytes 4 and 5 are non-zero |
| Packet.PcrBaseValue | ariblib/packet.py:177-179 | the or-of-shifts is `p[6] * 2^25 + p[7] * 2^17 + p[8] * 2^9 + p[9] * 2 + p[10] / 128` |
| Packet.PcrBaseIsField | ariblib/packet.py:177-179 | the integer PCR base is the 33-bit read at bit 48 of the packet |
| Packet.PcrBaseInAdaptationField | ariblib/packet.py:285-289 | it is also `program_clock_reference_base` of the adaptation field layout read on `packet[4:]` |
| Packet.PcrBaseParts | ariblib/packet.py:177-179 | the 33-bit read is the big-endian bytes 6..9 doubled plus the top bit of byte 10 |
| Packet.TransportErrorIndicator | ariblib/packet.py:188-190 | `transport_error_indicator`: the top bit of byte 1, as the source's `(packet[1] & 0x80) >> 7`; `Packet.HeaderFields` states it is the one-bit field at bit 8 |
| Packet.PayloadUnitStartIndicator | ariblib/packet.py:193-195 | `payload_unit_start_indicator`: bit 6 of byte 1, `(packet[1] & 0x40) >> 6` |
| Packet.Pid | ariblib/packet.py:203-205 | `pid`: the low five bits of byte 1 above byte 2; `Packet.PidIsSourceExpression` ties it to `((packet[1] & 0x1F) << 8) | packet[2]` |
| Packet.TransportScramblingControl | ariblib/packet.py:208-209 | `transport_scrambling_control`: the top two bits of byte 3, `(packet[3] & 0xC0) >> 6` |
| Packet.HasAdaptation | ariblib/packet.py:212-214 | `has_adaptation`: bit 5 of byte 3, `(packet[3] & 0x20) >> 5` |
| Packet.HasPayload | ariblib/packet.py:217-219 | `has_payload`: bit 4 of byte 3, `(packet[3] & 0x10) >> 4` |
| Packet.ContinuityCounter | ariblib/packet.py:222-224 | `continuity_counter`: the low nibble of byte 3, `packet[3] & 0x0F` |
| Packet.TransportPriority | ariblib/packet.py:198-200 | the evidently intended `transport_priority`: bit 5 of byte 1, `(packet[1] & 0x20) >> 5`; `Packet.TransportPriorityExample` reads 1 from `47 60 00 19` |
| Packet.Payload | ariblib/packet.py:239-268 | `payload(packet)`: two empty parts without the payload bit, all data from the payload offset as the second part for a continuation or a `00 00 01` start, and otherwise the pointer split; the offset's IndexError is passed on |
| Packet.PointerSplit | ariblib/packet.py:258-268 | a start packet's data: kept whole when it opens with `00 00 01`, an IndexError when the pointer byte is missing, else split at the pointer |
| Packet.SplitAtPointer | ariblib/packet.py:265-268 | `packet[start+1:start+1+pointer]` and `packet[start+1+pointer:]`; `Packet.SplitAtPointerTail` proves the parts rebuild the data |
| Packet.PcrBase | ariblib/packet.py:177-179 | the or of shifted bytes 6 to 10 that `pcrs` reads; `Packet.PcrBaseIsField` proves it is the 33-bit field at bit 48 |
| Reassembly.SectionLengthField | ariblib/packet.py:108-109 | the length the reader strips by is `(buffer[1] & 0x0F) << 8 | buffer[2]`, the 12-bit read at bit 12, below 0x1000 |
| Reassembly.DrainAccepted | ariblib/packet.py:100-103 | every section the inner loop emits starts with an accepted table id |
| Reassembly.DrainSuffixes | ariblib/packet.py:100-112 | every emitted section is the buffer from some point on (`buffer[:]` after stripping, never more) |
| Reassembly.DrainConcat | ariblib/packet.py:100-112 | a complete section at the front is emitted when its table id is accepted, and the walk goes on right after it |
| Reassembly.DrainStuffing | ariblib/packet.py:100 | an empty buffer or one starting with `0xFF` emits nothing |
| Reassembly.DrainSections | ariblib/packet.py:97-113 | complete sections followed by stuffing come out as exactly the accepted ones, in order |
| Reassembly.DrainUnfold | ariblib/packet.py:100-112 | one turn of the loop: emit when accepted, then stop at `00 00 01` or too-short data, else strip `section_length + 3` bytes |
| Reassembly.DrainBuffer | ariblib/packet.py:100-112 | the inner `while` loop emits exactly the drain sequence of the buffer |
| Reassembly.Tag | ariblib/packet.py:101-103 | each emitted section carries its PID, its bytes and the class `target_ids[(PID, buffer[0])]` |
| Reassembly.FeedAccepted | ariblib/packet.py:96-117 | whatever one packet's payload emits starts with a table id of its PID's set |
| Reassembly.IsFullAsWrittenAcceptsPartialSection | ariblib/sections.py:48-52 | as written, `isfull` holds for a 5-byte buffer whose `section_length` announces 8 more bytes |
| Reassembly.IsFullAsWrittenAcceptsPartialPes | ariblib/packet.py:443-447 | as written, the PES `isfull` holds for a 6-byte packet whose `PES_packet_length` announces 8 more bytes |
| Reassembly.IsFullMeansComplete | ariblib/sections.py:48-52 | the corrected check holds exactly when the buffer holds a whole section of `section_length + 3` bytes |
| Reassembly.IsFullWeakerThanWritten | ariblib/sections.py:48-52 | whatever the intended check accepts the written `isfull` accepts too, and both raise on the same too-short buffers |
| Reassembly.FlushFromStep | ariblib/packet.py:119-124 | the flush visits the buffers in creation order (dict insertion order, see "## Left out"); a leftover whose first byte is in the last `table_ids` is emitted when it passes `isfull` (as written, or the intended check), a missing class raises KeyError and a too-short buffer raises |
| Reassembly.SectionReader.constructor | ariblib/packet.py:77-87 | a reader starts with no buffers and the dispatch tables of the requested classes |
| Reassembly.SectionReader.Step | ariblib/packet.py:89-117 | one packet updates the buffers and returns the emitted sections as the step specification says |
| Reassembly.SectionReader.Flush | ariblib/packet.py:119-124 | end of stream: the leftovers are emitted, or the loop raises, exactly as the flush with `isfull` as written does, using the last PID's `table_ids` |
| Reassembly.StepKeepsTracks | ariblib/packet.py:89-117 | every step keeps the buffer map and the PID order in step |
| Reassembly.RunFromStep | ariblib/packet.py:89-124 | a run is the first step's output followed by the run over the rest; a raised error ends it |
| Reassembly.Sections | ariblib/packet.py:74-124 | `sections` over a packet sequence emits exactly what the run specification gives, then the flush |
| Reassembly.StepUntracked | ariblib/packet.py:90-92 | a packet of an untracked PID changes nothing and emits nothing |
| Reassembly.StepOthersUnchanged | ariblib/packet.py:94-117 | a packet only touches its own PID's buffer |
| Reassembly.StepContinuation | ariblib/packet.py:114-117 | a continuation packet is dropped when its buffer is empty and appended otherwise; it emits nothing |
| Reassembly.StepRaises | ariblib/packet.py:96 | a packet whose payload cannot be split raises, as the slice `packet[start]` would |
| Reassembly.StepUnitStart | ariblib/packet.py:97-113 | on a start packet, the buffer plus `prev` emits its accepted complete sections and the buffer becomes `current` |
| Reassembly.StepEmitsRegistered | ariblib/packet.py:101-103 | everything a step emits has the packet's PID and a registered (PID, table id) pair |
| Reassembly.FlushEmitsRegistered | ariblib/packet.py:119-124 | everything flushed is registered, starts with one of the last `table_ids` and passes the flush's check (`isfull` as written, or the intended one) |
| Reassembly.IntendedFlushEmitsComplete | ariblib/packet.py:119-124 | with the intended check the flush yields only PSI sections that hold their whole `section_length + 3` bytes |
| Reassembly.FlushWrittenCoversIntended | ariblib/packet.py:119-124 | the flush as written raises exactly when the intended one does and yields every section the intended one yields, in order |
| Reassembly.FlushYieldsPartialSection | ariblib/packet.py:119-124 | a leftover 5-byte PAT buffer `00 B0 08 00 00` on PID 0 is yielded at end of stream as written and not by the intended flush |
| Reassembly.StepContinues | ariblib/packet.py:114-117 | a continuation packet on a PID collecting a unit appends its payload to that buffer, changes nothing else and emits nothing |
| Reassembly.RunContinuations | ariblib/packet.py:114-117 | a run of continuation packets appends all their payloads, in order, to the buffer being collected and emits nothing |
| Reassembly.StepStartsUnit | ariblib/packet.py:94-113 | a start packet on an empty or new buffer emits nothing and leaves the bytes after the pointer as the buffer |
| Reassembly.StepCompletes | ariblib/packet.py:97-113 | a start packet whose bytes before the pointer complete one accepted section and stuffing emits that section with the stuffing and restarts the buffer with the bytes after the pointer |
| Reassembly.SectionCompletes | ariblib/packet.py:89-117 | once a unit has begun, its continuations and the next start packet emit the completed section once |
| Reassembly.SectionAcrossPackets | ariblib/packet.py:89-117 | a section split over a start packet, any number of continuations and the bytes before the next pointer is emitted once, with what follows it; the output and the buffers left do not depend on where the packets split it |
| Reassembly.RunEmitsRegistered | ariblib/packet.py:74-124 | every section a whole run emits has a registered pair |
| Dispatch.BuildTables | ariblib/packet.py:79-87 | the nested loops build exactly the dispatch tables the specification defines |
| Dispatch.AddTableIdsSpec | ariblib/packet.py:85-87 | registering a PID's table ids adds exactly those pairs, overwriting their class, and extends that PID's set |
| Dispatch.AddPidsSpec | ariblib/packet.py:84-87 | registering a class adds exactly its PIDs × table ids |
| Dispatch.BuildDomain | ariblib/packet.py:83-87 | a pair is in `target_ids` exactly when some requested class declares it |
| Dispatch.BuildLast | ariblib/packet.py:83-87 | a pair maps to the last requested class that declares it |
| Dispatch.BuildTableMap | ariblib/packet.py:79-87 | `table_map[PID]` holds exactly the table ids paired with the PID in `target_ids` |
| Dispatch.BuildConsistent | ariblib/packet.py:79-87 | the tables agree with each other and only name PIDs in `target_pids` |
| Reassembly.SectionLength | ariblib/packet.py:108-109 | the 12-bit `section_length` of a buffer, `((b[1] & 0x0F) << 8) | b[2]`; `Reassembly.SectionLengthField` proves it is that expression and the 12-bit field at bit 12 |
| Reassembly.Drain | ariblib/packet.py:100-112 | the sections the inner `while` loop yields: it stops at an empty buffer, `0xFF` stuffing, the PES prefix or a buffer too short for its length (the caught IndexError), yields the remaining buffer when its table id is accepted, and strips `section_length + 3` bytes; `Reassembly.DrainSections` states what it emits |
| Reassembly.Accepted | ariblib/packet.py:100-112 | the reference for a buffer of complete sections and stuffing: each accepted section with everything after it, in order; `Reassembly.DrainSections` proves `Drain` equals it |
| Reassembly.Touch | ariblib/packet.py:93-95 | `buf[PID]` on the defaultdict creates an empty buffer at the end of the creation order (dict insertion order) the first time, and `table_ids = table_map[PID]` is remembered for the flush |
| Reassembly.Feed | ariblib/packet.py:96-117 | one payload on one buffer: a unit start completes a non-empty buffer with `prev`, drains it and keeps `current`; a continuation is dropped on an empty buffer and appended otherwise; `Reassembly.StepUnitStart` and `Reassembly.StepContinuation` state both cases |
| Reassembly.StepSpec | ariblib/packet.py:89-117 | one iteration of the packet loop: an untracked PID changes nothing, `payload`'s IndexError ends the run, otherwise the PID's buffer is fed and the drained sections are tagged with their class |
| Reassembly.PesPacketLength | ariblib/packet.py:443-447 | `PES_packet_length`: the 16 bits of bytes 4 and 5 |
| Reassembly.DeclaredLength | ariblib/sections.py:48-52 | the length field `isfull` reads, `section_length` or `PES_packet_length`, with IndexError when the buffer is too short for it |
| Reassembly.IsFullAsWritten | ariblib/sections.py:48-52 | `isfull` as the source writes it: the declared length is at most `len(self) + 3`; `Reassembly.IsFullAsWrittenAcceptsPartialSection` shows it accepts a partial section |
| Reassembly.IsFull | ariblib/sections.py:45-52 | the evidently intended `isfull`: the buffer holds the header and all the declared bytes; `Reassembly.IsFullMeansComplete` proves it holds exactly for a whole section |
| Reassembly.FullCheck | ariblib/packet.py:123 | the check the flush applies: the written `isfull` for the reader, the intended one for the comparison lemmas |
| Reassembly.FlushEntry | ariblib/packet.py:120-124 | one leftover buffer: a candidate only when non-empty and its first byte is among the last PID's `table_ids`; KeyError without a class for the pair; emitted when the check passes |
| Reassembly.FlushFrom | ariblib/packet.py:119-124 | the end-of-stream loop over the buffers in creation order (dict insertion order, see "## Left out"), stopping at the first exception; `Reassembly.FlushEmitsRegistered` and `Reassembly.FlushWrittenCoversIntended` state what it emits |
| Reassembly.RunFrom | ariblib/packet.py:89-124 | the whole generator over a packet sequence: each packet's sections in order, the first exception ending the run, then the flush; `Reassembly.SectionAcrossPackets` is its end-to-end property |
| Dispatch.TableIdsOf | ariblib/packet.py:81 | `table_map[PID]`: the defaultdict gives the empty set for a PID it has not seen |
| Dispatch.TargetPids | ariblib/packet.py:79-80 | `target_pids`: the union of the requested classes' `_pids` |
| Dispatch.AddPair | ariblib/packet.py:86-87 | the innermost loop body: the pair is sent to the class and the table id is added to the PID's set |
| Dispatch.AddTableIds | ariblib/packet.py:85-87 | the loop over one class's table ids for one PID; `Dispatch.AddTableIdsSpec` states the pairs it adds |
| Dispatch.AddPids | ariblib/packet.py:84-87 | the loop over one class's PIDs; `Dispatch.AddPidsSpec` states the pairs it adds |
| Dispatch.Build | ariblib/packet.py:79-87 | both tables after the loops over the classes in argument order; `Dispatch.BuildDomain` and `Dispatch.BuildLast` state which pairs it holds and which class wins |
| Split.ByteBitSeq | ariblib/command/split.py:21-23 | `bits` yields eight bits per byte, bit `j` being the `j`-th most significant |
| Split.ByteBitIsShiftAndMask | ariblib/command/split.py:21-23 | each bit is the source's `(x >> mask) & 0x01` and is 0 or 1 |
| Split.DataBitsIndex | ariblib/command/split.py:21-23 | the bit stream has `8 * len(data)` bits and bit `k` is bit `k % 8` of byte `k / 8`, most significant first |
| Split.DataBitsAppend | ariblib/command/split.py:21-23 | the bits of a concatenation are the bits of the parts, in order |
| Split.CrcBitsAppend | ariblib/command/split.py:30-35 | shifting two runs of bits through the register is shifting the first, then the second |
| Split.Crc32Append | ariblib/command/split.py:26-36 | the CRC of `a + b` continues from the register the CRC of `a` leaves |
| Split.Crc32Empty | ariblib/command/split.py:29-36 | the CRC of no data is the preset 0xFFFFFFFF: there is no final XOR |
| Split.Crc32 | ariblib/command/split.py:26-36 | the byte-by-byte loop computes the bitwise CRC specification |
| Split.ShiftByte | ariblib/command/split.py:30-35 | eight iterations of the loop body (old top bit, shift, XOR 0x04C11DB7 when it differs from the input bit) shift one byte through the register |
| Split.ByteRestIsCrcBits | ariblib/command/split.py:30-35 | the loop body, from the `k`-th bit of a byte on, agrees with the bitwise specification |
| Split.Be32Bytes | ariblib/command/split.py:43 | `struct.pack('>L', crc)`: the four bytes of the register, most significant first |
| Split.CrcOfOwnValue | ariblib/command/split.py:26-36 | shifting a register's own four bytes through it leaves zero |
| Split.Crc32OfSectionWithCrc | ariblib/command/split.py:39-43 | the CRC of any data followed by its own big-endian CRC is 0, the check of ISO/IEC 13818-1 Annex A |
| Split.Stuffing | ariblib/command/split.py:44 | 163 bytes, all 0xFF |
| Split.ReplacePat | ariblib/command/split.py:39-45 | the byte-building method computes the new PAT the specification defines |
| Split.ReplacePatShape | ariblib/command/split.py:39-45 | fails only on fewer than 3 bytes; the copied head (16 bytes for a full packet, 183 in all) has byte 2 = 0x11, is followed by its CRC (so the CRC over both is 0), then by 0xFF bytes |
| Split.TestPatSection | tests/test_sections.py:13-15 | the 28 section bytes of the test PAT before its CRC |
| Split.TestPatRest | tests/test_sections.py:13-36 | from any byte `k` of the test PAT on, the rest of the register run ends at 0x903F0A85 |
| Split.TestPatCrc | tests/test_sections.py:36 | the CRC of the test PAT's 28 section bytes is the CRC it carries, 0x903F0A85 |
| Split.DataBits | ariblib/command/split.py:21-23 | the generator `bits(data)`: each byte's eight bits, most significant first; `Split.DataBitsIndex` and `Split.DataBitsAppend` state its length, each bit and concatenation |
| Split.CrcStep | ariblib/command/split.py:31-35 | one turn of the loop: the old top bit, the 32-bit shift, the XOR with 0x04C11DB7 when the top bit and the data bit differ |
| Split.CrcBits | ariblib/command/split.py:30-35 | the register after a run of bits passes through the loop; `Split.CrcBitsAppend` splits a run |
| Split.Crc32Spec | ariblib/command/split.py:26-36 | `crc32(data)`: the preset 0xFFFFFFFF run over `bits(data)` with no final XOR; `Split.Crc32` computes it, `Split.Crc32OfSectionWithCrc` is its residue property |
| Split.Be32 | ariblib/command/split.py:43 | `struct.pack('>L', crc)`: four bytes, most significant first; `Split.Be32Bytes` states each byte |
| Split.ReplacePatSpec | ariblib/command/split.py:39-45 | the new PAT: the first 16 bytes with byte 2 set to 0x11, their CRC and 163 bytes of stuffing, IndexError on fewer than 3 bytes; `Split.ReplacePatShape` states its layout |
| Walkers.Read12 | ariblib/pat.py:13 | the 12-bit length read fails exactly when byte `i + 1` is missing, and is below 0x1000 |
| Walkers.Read12Field | ariblib/pmt.py:16-17 | the 12-bit length is the source's `((t[i] & 0x0F) << 8) | t[i + 1]` and the schema read of the low 12 bits |
| Walkers.Descriptors | ariblib/descriptor.py:4-11 | the cursor loop yields exactly the slices of the walk specification, an `IndexError` ending it |
| Walkers.DescriptorsStep | ariblib/descriptor.py:7-11 | one turn: the slice `packet[index:index + packet[index + 1] + 2]`, then the walk from the next index |
| Walkers.DescriptorsCover | ariblib/descriptor.py:4-11 | the slices are contiguous, in order, and cover the input from index 0 |
| Walkers.DescriptorsShape | ariblib/descriptor.py:8-10 | every slice holds a tag and a length byte and at most the declared length; all but the last hold exactly it |
| Walkers.DescriptorsOfConcat | ariblib/descriptor.py:4-11 | round trip: well-formed descriptors placed back to back are sliced back into exactly themselves |
| Walkers.PatSectionsLoop | ariblib/pat.py:12-17 | the loop yields 4-byte slices from offset 8 while `index < section_length`, as the specification does |
| Walkers.PatSlicesIncludeCrc | ariblib/pat.py:12-17 | with `section_length = index + 1 + 4 c`, the walk yields the `c` entries and then one more slice: the CRC bytes |
| Walkers.PatSectionsExample | tests/test_sections.py:13-15 | for `section_length` 29 there are six slices, the sixth being bytes 28..31, the CRC |
| Walkers.ProgramEntry | ariblib/pat.py:19-23 | a pair is a 16-bit program number and a 13-bit PID; fewer than four bytes raise |
| Walkers.NonZeroProgramsMembers | ariblib/pat.py:25-28 | a PID is kept exactly when some pair carries it with a non-zero program number |
| Walkers.NonZeroProgramsAppend | ariblib/pat.py:25-28 | the filter keeps order: it distributes over concatenation |
| Walkers.EntriesLoop | ariblib/pmt.py:15-24 | the cursor loop shared by the PMT and EIT helpers yields exactly the walk specification |
| Walkers.EntriesOfConcat | ariblib/pmt.py:15-24 | round trip: well-formed entries placed back to back, with the bound at their end, are walked back into exactly themselves |
| Walkers.EntriesOfPlaced | ariblib/eit.py:17-25 | the same for entries found at any index of a fixed byte string |
| Walkers.EntriesEnd | ariblib/pmt.py:20-24 | the walk stops at or after its start |
| Walkers.EntriesContiguous | ariblib/pmt.py:20-24 | entries are contiguous: when no index error ends the walk they cover the bytes from the start to where it stopped, at or past the bound |
| Walkers.PmtSections | ariblib/pmt.py:15-24 | from `12 + program_info_length`, entries of `5 + ES_info_length` bytes while `index < section_length - 4` |
| Walkers.EitSections | ariblib/eit.py:17-25 | from 14, events of `12 + descriptors_loop_length` bytes while `index < section_length - 4` |
| Walkers.ElementaryPid | ariblib/pmt.py:29-30 | the elementary PID is below 0x2000; fewer than 3 bytes raise |
| Walkers.ElementaryPidField | ariblib/pmt.py:29-30 | it is the source's `((s[1] & 0x1F) << 8) | s[2]` and the 13-bit read at bit 11 |
| Walkers.EventId | ariblib/eit.py:27-28 | the event id is below 0x10000; fewer than 2 bytes raise |
| Walkers.EventIdField | ariblib/eit.py:27-28 | it is the 16-bit read at bit 0 and the big-endian value of bytes 0 and 1 |
| Walkers.Duration | ariblib/eit.py:43-47 | the duration needs bytes 7..9 and raises exactly when they are missing |
| Walkers.DurationIsBcdTime | ariblib/eit.py:43-47 | it is the BCD time of bytes 7..9 whenever they are not `FF FF FF` |
| Walkers.EitDescriptorsRoundTrip | ariblib/eit.py:49-52 | a well-formed descriptor loop of the declared length is sliced back into its descriptors |
| Walkers.DescriptorsFrom | ariblib/descriptor.py:4-11 | the slices `descriptors(packet)` yields from a cursor: tag, length byte and `length` body bytes each, IndexError when the length byte is missing; `Walkers.Descriptors` computes it and `Walkers.DescriptorsOfConcat` is its round trip |
| Walkers.PatSlicesFrom | ariblib/pat.py:14-17 | the 4-byte slices from the cursor while it is below `section_length`; `Walkers.PatSliceAt` states its `k`-th slice |
| Walkers.PatSections | ariblib/pat.py:12-17 | `pat.sections(table)` as written: `section_length`, then slices from offset 8; `Walkers.PatSlicesIncludeCrc` shows the CRC_32 comes out as a last slice |
| Walkers.PatSectionsIntended | ariblib/pat.py:12-17 | the evidently intended walk, which stops where the CRC_32 begins at `section_length - 1` |
| Walkers.PatSliceAt | ariblib/pat.py:14-17 | whenever `index + 4 k` is below the bound, the walk has a `k`-th slice and it is the four bytes at `index + 4 k` |
| Walkers.PatSlicesSplitCrc | ariblib/pat.py:14-17 | with `section_length = index + 1 + 4 c`, the written walk is the intended walk's `c` program entries followed by the slice of the CRC_32 bytes |
| Walkers.PatEntryBeforeCrc | ariblib/pat.py:14-17 | each of those `c` entries ends at or before the CRC_32 and is the four bytes at `index + 4 k` |
| Walkers.PatSectionsIntendedExample | ariblib/pat.py:12-17 | for `section_length` 29 the intended walk yields five program entries, and the written one yields them and then bytes 28..31 |
| Walkers.ProgramNumbers | ariblib/pat.py:19-23 | `program_numbers(table)`: each slice decoded in turn, the generator raising at the first short slice |
| Walkers.EntriesOf | ariblib/pat.py:20-23 | the decoding loop over the slices; it stops with the first slice `ProgramEntry` rejects |
| Walkers.NonZeroPrograms | ariblib/pat.py:27-28 | the list comprehension's filter; `Walkers.NonZeroProgramsMembers` and `Walkers.NonZeroProgramsAppend` state which PIDs it keeps and in what order |
| Walkers.PmtPids | ariblib/pat.py:25-28 | one list of `pmt_pids`: the PIDs of the non-zero programs of one table, or the error the generator raised |
| Walkers.EntriesFrom | ariblib/pmt.py:18-24 | the entries of declared length while the cursor is below `section_length - 4`, shared with ariblib/eit.py:19-25; `Walkers.EntriesLoop` computes it, `Walkers.EntriesContiguous` and `Walkers.EntriesOfConcat` state what it yields |
| Walkers.PmtSectionsSpec | ariblib/pmt.py:15-24 | `pmt.sections(table)`: entries of `5 + ES_info_length` bytes from `12 + program_info_length`; `Walkers.PmtSections` computes it |
| Walkers.EitSectionsSpec | ariblib/eit.py:17-25 | `eit.sections(table)`: events of `12 + descriptors_loop_length` bytes from 14; `Walkers.EitSections` computes it |
| Walkers.StreamType | ariblib/pmt.py:26-27 | `stream_type(section)`: byte 0, IndexError on an empty slice |
| Walkers.PmtDescriptors | ariblib/pmt.py:32-35 | `pmt.descriptors(section)`: the descriptor slicer over `section[5:5 + ES_info_length]` |
| Walkers.EitDescriptors | ariblib/eit.py:49-52 | `eit.descriptors(section)`: the descriptor slicer over `section[12:12 + descriptors_loop_length]`; `Walkers.EitDescriptorsRoundTrip` is its round trip |
| Service.AdjustedTsid | ariblib/service.py:43-44 | the tsid is kept, except 16625 and 16626 (NHK BS), which are decremented |
| Service.ParseTsidFields | ariblib/service.py:41-50 | each field of the intended parse is a bit range of the adjusted tsid: bits 12-15, 9-11, 4-8 and 0-2, so below 16, 8, 32 and 8; the parse as written agrees on every field but `new` |
| Service.ParseTsidNewAsWritten | ariblib/service.py:46 | as written, `new` is bits 13-15 of the adjusted tsid moved to bits 4-6: a multiple of 16 below 128 |
| Service.NewFieldAsWrittenOverlapsNetwork | ariblib/service.py:46 | for tsid 0x4010 the mask as written (0x0E000) gives `new` = 32, outside the 3-bit field, while the intended parse gives 0 |
| Service.DecimalString | ariblib/service.py:61 | `'{}'.format(n)`: digits only, one digit exactly for `n < 10` |
| Service.Pad2 | ariblib/service.py:59-61 | `'{:02d}'.format(n)`: digits only, at least two, exactly two below 100 |
| Service.DecimalStringValue | ariblib/service.py:61 | reading back the written digits gives the number |
| Service.Pad2Value | ariblib/service.py:59-61 | reading back the zero-padded digits gives the number |
| Service.RemoveAll | ariblib/service.py:73-76 | `replace(pat, '')` never lengthens the text |
| Service.BeforeFirst | ariblib/service.py:72-73 | `split('_')[0]`: the prefix before the first separator, which holds none |
| Service.BeforeFirstAt | ariblib/service.py:72-73 | splitting at a separator that follows a separator-free prefix gives that prefix |
| Service.StripUnchanged | ariblib/service.py:73-79 | `int` strips surrounding whitespace: text without any is left as it is |
| Service.ParseIntDigits | ariblib/service.py:73-79 | `int` of a run of digits is the number it spells |
| Service.ParseIntNegative | ariblib/service.py:73-79 | `int` of a minus sign and digits is the negated number |
| Service.DigitsHaveNoLetters | ariblib/service.py:70-76 | a run of digits contains neither "BS" nor "CS" and loses nothing to `replace` |
| Service.PrefixedDigits | ariblib/service.py:70-76 | "BS" or "CS" followed by digits contains its letters, and removing them leaves the digits |
| Service.PrefixedDigitsLack | ariblib/service.py:70-74 | "CS" and digits does not contain "BS" |
| Service.ChannelOfCs | ariblib/service.py:74-76 | "CS" and digits is read as CS with the digits' value |
| Service.ChannelOfBs | ariblib/service.py:70-73 | "BS", digits, "_" and anything is read as BS with the digits' value |
| Service.ChannelOfTsid2Channel | ariblib/service.py:53-76 | round trip: the channel name of a tsid is read back as CS for an even repeater and BS for an odd one, with the repeater as channel number |
| Service.Logo | ariblib/service.py:90-94 | the `for ... break` loop returns the first type-3 logo, else '' |
| Service.FirstLogoAt | ariblib/service.py:91-94 | the first type-3 entry decides the logo |
| Service.FirstLogoNone | ariblib/service.py:90-94 | without a type-3 entry the logo stays '' |
| Service.MakeService | ariblib/service.py:68-94 | a service is built exactly when the channel id parses and there is a service descriptor; it copies the ids, the parsed channel, the first descriptor's type, provider and name, and the first type-3 logo; the error names the first failure |
| Service.ServiceOfTsid | ariblib/service.py:53-76 | a service built from the channel name of its stream's tsid has the repeater as channel number |
| Table.TablesAppend | ariblib/table.py:22-24 | the filter distributes over concatenation (it keeps order) |
| Table.TablesMember | ariblib/table.py:22-24 | a payload is yielded exactly when some triple with a selected PID and table id carries it |
| Table.DispatchedIsTables | ariblib/table.py:16-24 | when the registry holds exactly `pids` × `table_ids`, `run` hands over the same payloads, in order, as `tables` yields |
| Table.DispatchedRegistered | ariblib/table.py:16-19 | every call goes through a registered pair, with that triple's payload |
| Table.DispatchedAppend | ariblib/table.py:17-19 | `run` handles one triple after another |
| Table.Registry.constructor | ariblib/table.py:5 | the registry starts empty |
| Table.Registry.On | ariblib/table.py:8-13 | every pair of `pids` × `table_ids` maps to the function, a later registration replacing an earlier one; every other pair is kept |
| Table.Registry.Run | ariblib/table.py:16-19 | each payload whose pair is registered goes to its handler, in order, and no other |
| Service.NewFieldAsWritten | ariblib/service.py:46 | `new` as written, `(tsid & 0x0E000) >> 9`: bits 13 to 15 of the tsid; `Service.NewFieldAsWrittenOverlapsNetwork` shows it overlaps `network_lower_4bit` |
| Service.NewField | ariblib/service.py:45-47 | `new` as the neighbouring four-digit masks intend, bits 9 to 11; `Service.ParseTsidFields` bounds it below 8 |
| Service.ParseTsid | ariblib/service.py:41-50 | `parse_tsid` as written: the NHK BS adjustment, then the four masked fields; `Service.ParseTsidNewAsWritten` states its `new` |
| Service.ParseTsidIntended | ariblib/service.py:41-50 | `parse_tsid` with the intended `new`; `Service.ParseTsidFields` states every field as a bit range |
| Service.Tsid2Channel | ariblib/service.py:53-61 | `tsid2channel`: "CS" and the two-digit repeater when it is even, else "BS", the repeater, "_" and the slot; `Service.ChannelOfTsid2Channel` is its round trip |
| Service.ParseInt | ariblib/service.py:73-79 | Python's `int(s)` restricted to ASCII digits: surrounding whitespace, an optional sign, at least one ASCII digit, ValueError otherwise (other Unicode digits and underscores under "## Left out"); `Service.ParseIntDigits` and `Service.ParseIntNegative` state its values |
| Service.ChannelOf | ariblib/service.py:70-79 | the broadcasting type and channel number `Service.__init__` derives from a channel id; `Service.ChannelOfBs` and `Service.ChannelOfCs` state its cases; numbers are read by `Service.ParseInt`, so only ASCII digits are modelled |
| Service.FirstLogo | ariblib/service.py:90-94 | the logo text of the first type-3 logo transmission descriptor, or ''; `Service.Logo` computes it, `Service.FirstLogoAt` and `Service.FirstLogoNone` state its cases |
| Table.Tables | ariblib/table.py:22-24 | the generator `tables`: the payloads of the triples whose PID and table id are both listed, in order; `Table.TablesMember` and `Table.TablesAppend` state which and in what order |
| Table.Dispatched | ariblib/table.py:16-19 | the calls `run` makes: each payload whose pair is registered, with the registered function; `Table.DispatchedRegistered` and `Table.DispatchedIsTables` state them |
| Event.MergeAll | ariblib/event.py:101-109 | the `detail` list after all items always keeps its sentinel entry |
| Event.MergeAllAppend | ariblib/event.py:103-109 | one more item is one more step of the merge |
| Event.MergeDetail | ariblib/event.py:101-110 | the nested loop over the extended event descriptors and their items builds exactly the merged entries after the sentinel |
| Event.MergeAllWellMerged | ariblib/event.py:101-109 | after the sentinel, no entry has an empty key |
| Event.EntryKeys | ariblib/event.py:110 | the key of every entry, position by position |
| Event.StepKeys | ariblib/event.py:106-109 | one step: an empty key changes no key; any other key starts an entry unless it repeats the last one |
| Event.DetailKeys | ariblib/event.py:101-110 | the entries' keys are the non-empty item keys with consecutive repeats collapsed, so a non-consecutive repeat starts a new entry |
| Event.MergeKeepsBytes | ariblib/event.py:106-109 | the merge loses and reorders no byte: the entries, sentinel included, hold exactly the items' bytes in order |
| Event.SentinelSettled | ariblib/event.py:106-109 | once a keyed entry exists, later items never touch the sentinel |
| Event.UnkeyedPrefix | ariblib/event.py:101-107 | items before any keyed item all land on the sentinel |
| Event.UnkeyedPrefixDiscarded | ariblib/event.py:101-110 | their bytes stay on the sentinel and are dropped with it; the first keyed item opens the first entry |
| Event.KeysOfKeyedPrefix | ariblib/event.py:106-110 | the first collapsed key is the first non-empty item key |
| Event.CollapseEmpty | ariblib/event.py:106-110 | collapsing yields no key exactly when there is none |
| Event.KeysEmpty | ariblib/event.py:104-106 | there are no keys exactly when every item key is empty |
| Event.DetailNonEmpty | ariblib/event.py:110-114 | `detail` and `longdesc` are set exactly when some item has a non-empty key |
| Event.DictOfKeys | ariblib/event.py:112 | `dict(detail)` has a key exactly when some entry has it |
| Event.DictOfLaterWins | ariblib/event.py:112 | the value under a key is that of the last entry with the key |
| Event.LongDescLength | ariblib/event.py:113-114 | `longdesc` is the "key\nvalue\n" blocks with one separator between each two |
| Event.LongDescShape | ariblib/event.py:113-114 | `longdesc` starts with the first key and a line feed and ends with a line feed |
| Event.Event.constructor | ariblib/event.py:41-114 | the ids are copied from the EIT and the event fields from the event; `detail` and `longdesc` are set from the merged entries exactly when there are any |
| Event.Flatten | ariblib/event.py:102-103 | the items of every extended event descriptor, descriptor after descriptor, as the nested loop visits them |
| Event.MergeStep | ariblib/event.py:104-109 | one item: an empty key, or the key of the last entry, extends that entry's bytes; any other key appends an entry; `Event.StepKeys` states its effect on the keys |
| Event.Detail | ariblib/event.py:101-110 | `detail[1:]`, the entries after the sentinel; `Event.DetailKeys` and `Event.MergeKeepsBytes` state its keys and bytes |
| Event.DictOf | ariblib/event.py:112 | `dict(detail)`: entries inserted in order; `Event.DictOfKeys` and `Event.DictOfLaterWins` state its keys and values |
| Event.Block | ariblib/event.py:114 | one `"{}\n{}\n".format(key, value)` block, the value decoded by the text function |
| Event.LongDesc | ariblib/event.py:113-114 | `'\n'.join` of the blocks; `Event.LongDescLength` and `Event.LongDescShape` state its length and first line |
| AribStr.Fresh | ariblib/aribstr.py:119-131 | a fresh controller: G0 kanji (2 bytes), G1 alphanumeric, G2 hiragana, G3 katakana, GL = G0, GR = G2, no single shift, escape count 0 |
| AribStr.AfterDegignate | ariblib/aribstr.py:133-144 | a designation that succeeds keeps the controller well formed and resets the escape count |
| AribStr.AfterInvoke | ariblib/aribstr.py:146-154 | every invocation resets the escape count |
| AribStr.CurrentCode | ariblib/aribstr.py:156-165 | a set is found exactly for GL (0x21-0x7E) and GR (0xA1-0xFE) bytes; the escape count is untouched |
| AribStr.AfterSetEscape | ariblib/aribstr.py:167-171 | each escape byte of a designation advances the count by one |
| AribStr.AfterControl | ariblib/aribstr.py:311-321 | a control byte keeps the controller well formed |
| AribStr.AfterEscape | ariblib/aribstr.py:323-366 | an escape byte that is accepted keeps the controller well formed |
| AribStr.CodeSetController.constructor | ariblib/aribstr.py:119-131 | the new controller is the fresh state |
| AribStr.CodeSetController.Degignate | ariblib/aribstr.py:133-144 | sets the slot from the DRCS or G table and resets the count, or reports `DegignationError`/`KeyError` and changes nothing |
| AribStr.CodeSetController.Invoke | ariblib/aribstr.py:146-154 | the new state is the invocation's: locking left sets GL, non-locking arms the single shift, right sets GR |
| AribStr.CodeSetController.GetCurrentCode | ariblib/aribstr.py:156-165 | returns the set the specification picks and clears a single shift it used |
| AribStr.CodeSetController.SetEscape | ariblib/aribstr.py:167-171 | records the target slot (when given) and the DRCS flag and advances the count |
| AribStr.AfterChar | ariblib/aribstr.py:260-309 | converting one character keeps the escape count and consumes at most the second byte |
| AribStr.Step | ariblib/aribstr.py:233-257 | one turn of the `convert` loop consumes at least one byte |
| AribStr.Converted | ariblib/aribstr.py:232-258 | a conversion that ends without error has consumed the whole input |
| AribStr.AribString.constructor | ariblib/aribstr.py:194-200 | the decoder starts with the fresh controller, the given bytes and empty output |
| AribStr.AribString.Pop0 | ariblib/aribstr.py:177-181 | pops the first byte, or reports the empty queue and changes nothing |
| AribStr.AribString.AppendStr | ariblib/aribstr.py:183-190 | appends the bytes, preceded by the 3-byte tag only when it differs from the last tag |
| AribStr.AribString.FlushJisArray | ariblib/aribstr.py:223-230 | moves the decoded JIS bytes to the text and empties them |
| AribStr.AribString.DoControl | ariblib/aribstr.py:311-321 | LS0/LS1/SS2/SS3 invoke G0-G3, ESC starts a sequence, other bytes change nothing |
| AribStr.AribString.DoEscape | ariblib/aribstr.py:323-366 | steps through the escape sequence as the specification does, reporting the error it raises |
| AribStr.AribString.DoConvert | ariblib/aribstr.py:260-309 | converts one character as the specification does |
| AribStr.AribString.EmitChar | ariblib/aribstr.py:270-309 | writes one character of the current set: kanji and planes under `ESC $ B`, alphanumerics under `ESC ( B`, kana, half-width katakana, symbols |
| AribStr.AribString.WriteSymbol | ariblib/aribstr.py:296-309 | an additional symbol flushes and writes its gaiji entry or "??" |
| AribStr.AribString.AppendKana | ariblib/aribstr.py:278-292 | codes from 0x77 go to row 0x21 through the kana map; lower codes are written after 0x24 or 0x25 |
| AribStr.AribString.Convert | ariblib/aribstr.py:232-258 | the `while True` loop reaches the state the conversion specification gives and returns its JIS bytes, or the error it raises |
| AribStr.AribString.Str | ariblib/aribstr.py:206-221 | `str()` converts, flushes and strips trailing whitespace |
| AribStr.AppendedTagged | ariblib/aribstr.py:183-190 | appending keeps the invariant: no tag is recorded exactly while the JIS output is empty, and non-empty output starts with an escape (`ESC`) |
| AribStr.EmitTagged | ariblib/aribstr.py:270-309 | writing a character keeps that invariant |
| AribStr.KanaTagged | ariblib/aribstr.py:278-292 | writing a kana keeps that invariant |
| AribStr.StepTagged | ariblib/aribstr.py:233-257 | every step keeps that invariant |
| AribStr.ConvertedTagged | ariblib/aribstr.py:232-258 | the whole conversion keeps that invariant |
| AribStr.AppendedMerges | ariblib/aribstr.py:183-190 | two appends under the same tag are one append of both parts: the tag is written once |
| AribStr.EmitExtendsText | ariblib/aribstr.py:296-309 | writing a character only extends the decoded text |
| AribStr.StepExtendsText | ariblib/aribstr.py:233-257 | a step only extends the decoded text |
| AribStr.ConvertedExtendsText | ariblib/aribstr.py:232-258 | the conversion only extends the decoded text |
| AribStr.SingleShiftOnce | ariblib/aribstr.py:156-165 | an armed single shift answers one GL byte and is cleared; the next GL byte uses GL; a GR byte leaves it armed |
| AribStr.ConvertedStep | ariblib/aribstr.py:233-257 | the conversion goes on from where a step leaves it |
| AribStr.DesignateThenShift | ariblib/aribstr.py:323-359 | `ESC ) F` then LS1 designates the set `F` into G1 and invokes it into GL |
| AribStr.DesignatedSetRead | ariblib/aribstr.py:156-162 | afterwards every GL byte is read in that set |
| AribStr.EscapeSequenceRejected | ariblib/aribstr.py:343-346 | an escape byte outside the known first bytes raises `EscapeSequenceError` |
| AribStr.UnknownFinalRejected | ariblib/aribstr.py:133-139 | a final byte outside `CODE_SET_KEYS` raises `DegignationError` |
| AribStr.DrcsOnlyFromDrcsTable | ariblib/aribstr.py:140-143 | a DRCS designation of a key found only in the G table raises `KeyError` |
| AribStr.TruncatedCharacter | ariblib/aribstr.py:256-265 | input ending in the middle of a two-byte character ends the conversion without error, keeping what was written |
| AribStr.KanjiStep | ariblib/aribstr.py:270-274 | a GL kanji pair is written as two bytes under the `ESC $ B` tag |
| AribStr.GrAlphanumericStep | ariblib/aribstr.py:266-277 | a GR alphanumeric byte is masked to 7 bits and written under `ESC ( B` |
| AribStr.NetworkNameExample | tests/sections/test_nit.py:11-41 | the network name `45 6C 35 7E 1B 7E B7` converts to `1B 24 42 45 6C 35 7E 1B 28 42 37` |
| AribStr.CodeSetG | ariblib/aribstr.py:21-37 | `CODE_SET_G`: the final byte of each graphic set and its bytes per character; `AribStr.DesignatedSetRead` shows a designated set is then read through it |
| AribStr.CodeSetDrcs | ariblib/aribstr.py:39-57 | `CODE_SET_DRCS`: DRCS-0 two bytes per character, DRCS-1 to 15 and the macro set one; `AribStr.DrcsOnlyFromDrcsTable` shows when it is used |
| AribStr.TagBytes | ariblib/aribstr.py:92-94 | the three ISO-2022-JP escape sequences `ESC ( B`, `ESC $ B`, `ESC ( I` |
| AribStr.Appended | ariblib/aribstr.py:183-190 | `append_str`: the escape sequence goes out only when it differs from the last one; `AribStr.AppendedMerges` and `AribStr.AppendedTagged` state what it keeps |
| AribStr.Flushed | ariblib/aribstr.py:223-230 | `flush_jis_array`: a non-empty JIS array is decoded onto the text and replaced by an empty one |
| AribStr.Emit | ariblib/aribstr.py:270-309 | the character output of `do_convert` for each graphic set; `AribStr.EmitTagged` and `AribStr.EmitExtendsText` state what it keeps |
| AribStr.Kana | ariblib/aribstr.py:278-292 | a hiragana or katakana: the marks from 0x77 on go to JIS row 1 through the kana maps, the rest to row 4 or 5; `AribStr.KanaTagged` states what it keeps |
| AribStr.Symbol | ariblib/aribstr.py:296-309 | an additional symbol: nothing without gaiji, else its gaiji text or "??", the title table feeding the symbol buffer when symbols are split |
| AribStr.Initial | ariblib/aribstr.py:194-200 | a new `AribString`: a fresh controller, the bytes to convert, empty output, symbols not split |
| AribStr.StrOf | ariblib/aribstr.py:206-221 | `str(AribString(bytes))`: convert, flush and strip trailing whitespace; `AribStr.NetworkNameExample` works one through |
| Schema.LastNamed | ariblib/syntax.py:22-31 | a class body is a dict, so a redeclared name keeps its last declaration: the index found names it and no later field does; None only when no field has the name |
| Schema.Attribute | ariblib/syntax.py:55-59 | attribute lookup tries the class's own body first, then the inherited one; a hit names the attribute and is found in one of the two; a miss only when neither declares it |
| Schema.Conditions | ariblib/syntax.py:23-24 | the `if` branches a class registers are at most as many as its fields |
| Schema.Latin1 | ariblib/mnemonics.py:200-209 | `char` maps every byte to the character with that code point, one character per byte |
| Schema.ReadUimsbf | ariblib/mnemonics.py:86-99 | a successful read is a non-negative integer below 2 to the field's width |
| Schema.Missing | ariblib/sections.py:35-43 | on a section, a name found nowhere is an AttributeError and never `None` |
| Schema.ParentLookup | ariblib/syntax.py:89-94 | a value other than `None` is produced only when the parent exists and declares the name |
| Schema.StartFirst | ariblib/syntax.py:33-40 | the first field starts at the syntax's own position |
| Schema.StartNext | ariblib/syntax.py:33-40 | field k+1 starts where field k starts plus field k's real length |
| Schema.FixedWidthSum | ariblib/syntax.py:71-75 | the length of a run of literal-width fields is the sum of their widths |
| Schema.SumLengthsAppend | ariblib/syntax.py:71-75 | the summed length of two runs of fields is the sum of the two, the first failure winning |
| Schema.UimsbfField | ariblib/mnemonics.py:79-83 | a literal-width field reads `uimsbf` at its start, below 2 to its width, and a read past the packet is an error |
| Schema.FixedOffsetRead | ariblib/mnemonics.py:79-83 | a field after literal-width fields only reads the bits at the sum of their widths |
| Schema.ByFieldLength | ariblib/mnemonics.py:66-67 | a length given by another field is eight times that field's value |
| Schema.ComputedLength | ariblib/mnemonics.py:68-69 | a length given by a function is eight times its value |
| Schema.MinusLength | ariblib/mnemonics.py:68-69 | a length `field - d` is eight times the field's value less d |
| Schema.CaseAbsent | ariblib/mnemonics.py:310-322 | an `if` branch whose condition is false reads as `None` and takes no bits |
| Schema.CasePresent | ariblib/mnemonics.py:310-322 | an `if` branch whose condition holds reads as its body at the branch's start with the outer syntax as parent, and is as long as the body's fields |
| Schema.AfterAbsentCase | ariblib/mnemonics.py:317-322 | the field after an absent branch starts where the branch would have started |
| Schema.EqualityConditions | ariblib/mnemonics.py:300-306 | a condition comparing a field with a constant holds exactly when the field's value equals, or differs from, the constant |
| Schema.TruthyCondition | ariblib/mnemonics.py:303-304 | a condition given as a field holds exactly when the field's value is not 0 |
| Schema.FlagConditions | ariblib/mnemonics.py:303-304 | for a one-bit flag, testing the field and testing it against 1 agree |
| Schema.ChoiceValue | ariblib/mnemonics.py:68-69 | a length chosen by a condition is the first or the second difference as the condition is true or false |
| Schema.ChoiceLength | ariblib/mnemonics.py:68-69 | a length `m - d1 if t == k else m - d2` is eight times the chosen difference |
| Schema.SizeLoopShape | ariblib/mnemonics.py:243-254 | a size-bounded loop is empty exactly when its span is, starts at its start, and every item is the loop body at a byte position inside the span, in increasing order |
| Schema.FixedStrideLoop | ariblib/mnemonics.py:243-254 | over a body of fixed byte width w, the loop is the tiling of the span by items w bytes apart |
| Schema.StrideLoopValue | ariblib/mnemonics.py:243-254 | a loop field after literal-width fields reads as the tiling of its span from the byte where it starts |
| Schema.CountLoopCount | ariblib/mnemonics.py:266-275 | a counted loop yields exactly `count` items (none for a count at most 0), each at a byte position |
| Schema.NoBranchHolds | ariblib/syntax.py:77-94 | when no `if` branch holds, a missing name falls through to the parent lookup |
| Schema.FirstTrueBranchAnswers | ariblib/syntax.py:81-85 | when the first branch holds and its body has the name, the lookup answers with the body's value |
| Schema.BodyNames | ariblib/syntax.py:103-105 | the names `get_names` takes from a true case table's body: a body without case tables lists exactly its field names; one with a case table fails with `TypeError`, as the nested condition reads the enclosing instance as a packet |
| Schema.NamesFrom | ariblib/syntax.py:96-108 | without case tables the names are the fields' names in order; with them at least every field that is not a case table is listed; `Schema.NamesFromStep` and `Schema.NamesFromMembers` state each case |
| Schema.WalkShape | ariblib/descriptors.py:36-50 | the descriptor walk is empty exactly when its span is; each descriptor is a fresh syntax over its own bytes, at least its two header bytes and at most `length + 2`, of the class its tag selects |
| Schema.WalkFirst | ariblib/descriptors.py:42-48 | the first descriptor is the slice from its tag byte of `descriptor_length + 2` bytes, read with the class of its tag |
| Schema.GroupByClass | ariblib/descriptors.py:41-48 | the `defaultdict` has a key exactly for each class met, and each key holds the descriptors of that class in order |
| Schema.OfClassEmpty | ariblib/descriptors.py:41-48 | a class never met groups no descriptors |
| Schema.OwnField | ariblib/syntax.py:22-31 | a field that no later field redeclares is the one the class's lookup finds |
| Schema.OwnFixedValue | ariblib/mnemonics.py:79-83 | a literal-width own field reads `uimsbf` at its fixed offset |
| Schema.OwnFixedRead | ariblib/mnemonics.py:79-83 | a literal-width own field reads the value `uimsbf` gives at its offset |
| Schema.OwnByteRead | ariblib/mnemonics.py:86-96 | an 8-bit field on a byte boundary reads that byte |
| Schema.OwnPidRead | ariblib/mnemonics.py:86-99 | a 13-bit field three bits into a byte reads the 13-bit pid of that byte pair |
| Schema.OwnLow12Read | ariblib/mnemonics.py:86-99 | a 12-bit field four bits into a byte reads the low 12 bits of that byte pair |
| Schema.OwnBytesRead | ariblib/mnemonics.py:86-99 | a whole-byte field on a byte boundary reads its bytes big-endian |
| Schema.OwnBitsInByteRead | ariblib/mnemonics.py:93-96 | a field inside one byte reads the masked, shifted bits of that byte |
| Schema.OwnStrideLoopRead | ariblib/mnemonics.py:243-254 | a loop field reads as the tiling of its span |
| Schema.OwnCaseRead | ariblib/mnemonics.py:310-315 | an own `if` field reads as its body at its start when the condition holds, and `None` otherwise |
| Schema.OwnCaseAfterFixed | ariblib/mnemonics.py:310-315 | an `if` field after literal-width fields reads its body at the sum of their widths |
| Schema.OwnCaseAfterAbsent | ariblib/mnemonics.py:310-322 | an `if` field right after an absent branch reads its body where that branch would have started |
| Schema.OwnChoiceLength | ariblib/mnemonics.py:68-69 | a length chosen by a bit field and measured by a byte field is eight times the chosen byte difference |
| Schema.OwnFlagConditions | ariblib/mnemonics.py:303-304 | a one-bit flag field holds exactly when its bit in the packet is set |
| Schema.OwnLow12MinusLength | ariblib/mnemonics.py:68-69 | a length `section_length - d` over a 12-bit length field is eight times the low 12 bits less d |
| Schema.OwnLow12MinusStride | ariblib/mnemonics.py:243-254 | a loop sized `section_length - d` is the tiling of that many bytes |
| Schema.OwnByteMinusLength | ariblib/mnemonics.py:68-69 | a length `field - d` over an 8-bit field is eight times the byte less d |
| Schema.OwnByteMinusStride | ariblib/mnemonics.py:243-254 | a loop sized `field - d` over an 8-bit field is the tiling of that many bytes |
| Schema.Arith | ariblib/mnemonics.py:68-69 | `+`, `-` and `*` of the integer lambdas layouts give as lengths and counts: the left operand's exception first, `TypeError` on `None` |
| Schema.SpanValue | ariblib/mnemonics.py:80-232 | the `__get__` of the byte-span kinds: `uimsbf`, `bcd`, `mjd` (None for the undefined date), `aribstr`, `char`, `raw`; `Schema.UimsbfField` and `Schema.Latin1` state two of them |
| Schema.ClassForTag | ariblib/descriptors.py:61-63 | `Descriptor.get(tag)`: the registered class, or the base `Descriptor` for an unknown tag |
| Schema.Walk | ariblib/descriptors.py:37-50 | the descriptor walk: from the field's start while below its end, `packet[start + 1] + 2` bytes at a time, each on its own slice; `Schema.WalkShape` and `Schema.WalkFirst` state it |
| Schema.Group | ariblib/descriptors.py:41-48 | `result[desc_class].append(inner)` over the walk; `Schema.GroupByClass` states its keys and lists |
| Schema.Get | ariblib/syntax.py:77-94 | `getattr(instance, name)`: a declared field through its `__get__`, otherwise `__getattr__`; the `Own*Read` lemmas state what it reads |
| Schema.SearchCases | ariblib/syntax.py:81-87 | the loop over `_conditions`: the first case whose condition holds answers, an AttributeError moving on; `Schema.NoBranchHolds` and `Schema.FirstTrueBranchAnswers` state both outcomes |
| Schema.FieldValue | ariblib/mnemonics.py:80-322 | `__get__` of each field kind at its start: case tables, both loops, descriptor lists, `bcdtime` and the byte spans; `Schema.CaseAbsent`, `Schema.CasePresent` and `Schema.FixedStrideLoop` state it per kind |
| Schema.RealLength | ariblib/mnemonics.py:56-73 | `real_length(instance)` in bits: a literal, another field's value times 8, a lambda's value times 8, the body's sum for a nested loop; a case table 0 or its body's sum, a counted loop its elements' sum; `Schema.ByFieldLength` and `Schema.ComputedLength` state it |
| Schema.SumLengths | ariblib/syntax.py:71-75 | `sum(m.real_length(n) for m in fields)`, the first exception winning; `Schema.FixedWidthSum` and `Schema.SumLengthsAppend` state it |
| Schema.Start | ariblib/syntax.py:33-40 | the `start` closure of a field: the lengths of the fields declared before it, plus `_pos`; `Schema.StartFirst` and `Schema.StartNext` state it |
| Schema.LenOf | ariblib/syntax.py:71-75 | `len(n)`: the summed field lengths of a `Syntax`, the byte length of a `Section`'s packet |
| Schema.Truth | ariblib/mnemonics.py:303-304 | Python's truth value of an attribute, a `Syntax` being true when its length is not 0; `Schema.TruthyCondition` and `Schema.FlagConditions` state it for fields |
| Schema.Eval | ariblib/mnemonics.py:68-69 | a layout lambda evaluated on the instance: literals, attributes, arithmetic and conditional choice; `Schema.ChoiceValue` states the choice |
| Schema.Holds | ariblib/mnemonics.py:300-306 | a case table's condition: a field's truth value, or a lambda's comparison; `Schema.EqualityConditions` states the comparisons |
| Schema.SizeLoopFrom | ariblib/mnemonics.py:244-254 | `fixed_size_loop.__get__`: elements built back to back while the cursor is below the end, each advancing by `len(obj) // 8`; `Schema.SizeLoopShape` and `Schema.FixedStrideLoop` state it |
| Schema.CountLoopFrom | ariblib/mnemonics.py:266-275 | `fixed_count_loop.__get__`: `count` elements built back to back; `Schema.CountLoopCount` states their number |
| Schema.OfClass | ariblib/descriptors.py:41-48 | the descriptors of one class in stream order, the list `result[cls]` holds; `Schema.GroupByClass` and `Schema.OfClassEmpty` state it |
| Schema.GetNames | ariblib/syntax.py:96-108 | `get_names()`: the names over the instance's own fields; `Schema.NamesFromMembers` states which names it lists |
| Schema.FieldNames | ariblib/syntax.py:101-107 | what one field adds to `get_names`: its name; for a case table its body's names when the condition holds, nothing when it fails, the condition's exception otherwise |
| Schema.NamesFromStep | ariblib/syntax.py:101-107 | one turn of the loop: a plain field appends its name, a case table whose condition holds its body's names, one whose condition fails nothing |
| Schema.NamesFromCons | ariblib/syntax.py:100-108 | the loop over `[f] + rest` is `f`'s contribution followed by the loop over `rest`, the first exception winning |
| Schema.NamesFromAppend | ariblib/syntax.py:100-108 | the names over two runs of fields are the first run's followed by the second's, the first exception winning |
| Schema.NamesFromMembers | ariblib/syntax.py:96-108 | when `get_names` succeeds, every plain field's name and every name of a holding case table's body is listed, and every listed name comes from one of those |
| SyntaxDecl.FieldsOf | ariblib/syntax.py:26-29 | the fields a class body declares are at most its assignments |
| SyntaxDecl.ConditionsSnoc | ariblib/syntax.py:23-24 | appending a field adds a case table exactly when the field is an `if` branch |
| SyntaxDecl.SetItemKeepsConsistent | ariblib/syntax.py:22-31 | one assignment keeps each field's start closure over exactly the fields before it, the case tables equal to those of the fields, and every key bound to a field naming the last field of that name |
| SyntaxDecl.SyntaxDict.constructor | ariblib/syntax.py:18-20 | a fresh namespace has no fields, no case tables and no entries |
| SyntaxDecl.SyntaxDict.SetItem | ariblib/syntax.py:22-31 | a field is appended with a start over the fields so far, a case table also to the conditions, and every value is stored under its key; the namespace stays consistent |
| SyntaxDecl.SyntaxDict.DeclareAll | ariblib/syntax.py:51-59 | executing a class body appends exactly its fields, in order, keeping the namespace consistent |
| SyntaxDecl.ClassOf | ariblib/syntax.py:55-59 | the class made from a body has that body's fields and inherits its base's fields and its section flag |
| SyntaxDecl.Declare | ariblib/syntax.py:51-59 | declaring a class from an empty namespace gives exactly the body's fields, over the base's |
| Memo.LenKeyInjective | ariblib/mnemonics.py:26 | two names with the same `'_<name>_len'` key are the same name |
| Memo.SameKeySameField | ariblib/mnemonics.py:24-33 | within a body of distinct names, one length key belongs to one field |
| Memo.Instance.constructor | ariblib/syntax.py:65-69 | a fresh instance has no cached attributes and no cached lengths |
| Memo.Instance.Read | ariblib/mnemonics.py:37-44 | a read answers what the lookup gives; a cached attribute is returned as stored, and a value a field produced is stored under its name; the caches stay exact |
| Memo.Instance.ReadTwice | ariblib/mnemonics.py:37-44 | reading twice gives the same answer both times, and a field's value is then cached |
| Memo.Instance.Length | ariblib/mnemonics.py:21-34 | a length cached under the field's key is returned as stored, which is the length of the field it was measured for; otherwise the field's real length is computed and stored when it is a number |
| Memo.Instance.MeasureOwn | ariblib/mnemonics.py:21-34 | with distinct field names, the cached length of an own field is that field's real length |
| Memo.Instance.Len | ariblib/syntax.py:71-75 | `len()` summing cached lengths equals the uncached length: the packet size for a section, the sum of the real lengths otherwise |
| Descriptors.RegisteredLast | ariblib/descriptors.py:24-29 | after a run of `@tag` decorations a tag is registered exactly when some class was tagged with it, and maps to the last class tagged with it |
| Descriptors.TagRegistry.constructor | ariblib/descriptors.py:21 | the registry starts empty |
| Descriptors.TagRegistry.Tag | ariblib/descriptors.py:24-29 | `@tag(t)` returns the class unchanged and maps t to it, overriding any earlier class |
| Descriptors.TagRegistry.RegisterAll | ariblib/descriptors.py:24-29 | decorating a run of classes adds the run's registrations over the old table |
| Descriptors.TagRegistry.Get | ariblib/descriptors.py:61-63 | `Descriptor.get(t)` is the class tagged t, or `Descriptor` for an unknown tag |
| Descriptors.TagRegistry.Snapshot | ariblib/descriptors.py:21 | the registry's value is its tag table over its base class |
| Descriptors.GroupSnoc | ariblib/descriptors.py:48 | appending a descriptor adds it at the end of its class's list, creating the list when absent |
| Descriptors.WalkStep | ariblib/descriptors.py:42-49 | one loop turn slices `descriptor_length + 2` bytes from the tag byte, reads them with the tag's class, and moves to the block's end |
| Descriptors.Collect | ariblib/descriptors.py:36-50 | the loop's dictionary is the grouping by class of the descriptors walked over the span, and an error when the walk fails |
| Descriptors.SectionRegistryLookup | ariblib/descriptors.py:66-99 | the tags of the modelled descriptors map to their classes and every other tag to `Descriptor` |
| Descriptors.ConditionalAccessLayout | ariblib/descriptors.py:66-76 | `descriptor_length` is byte 1, `CA_system_ID` the 16 bits from bit 16, `CA_PID` the 13 bits from bit 35 |
| Descriptors.CaSystemId | ariblib/descriptors.py:73 | `CA_system_ID` reads bytes 2 and 3 big-endian |
| Descriptors.CaPid | ariblib/descriptors.py:74-75 | `CA_PID` reads the 13-bit pid of bytes 4 and 5 |
| Descriptors.ServiceListLayout | ariblib/descriptors.py:99-110 | the services loop follows the two header bytes, sized by `descriptor_length`, over 3-byte entries |
| Descriptors.ServiceListServices | ariblib/descriptors.py:107-110 | the services are the 3-byte entries tiling `descriptor_length` bytes from byte 2 |
| Descriptors.CopyrightLayout | ariblib/descriptors.py:79-86 | as written the class starts with `descriptor_length` at byte 0 and the identifier at byte 1; with `descriptor_tag` declared they sit at bytes 1 and 2 |
| Descriptors.CopyrightAsWrittenReads | ariblib/descriptors.py:84-85 | as written, `descriptor_length` reads the tag byte and the identifier reads bytes 1 to 4 |
| Descriptors.CopyrightAsWrittenMisreadsLength | ariblib/descriptors.py:84 | for the descriptor `0D 04 00 00 00 01` the as-written class gives length 13 where the descriptor's length is 4 |
| Descriptors.CopyrightReads | ariblib/descriptors.py:79-86 | with the tag declared, `descriptor_length` is byte 1 and the identifier bytes 2 to 5 |
| Descriptors.TerrestrialLayout | ariblib/descriptors.py:940-953 | the `freqs` loop starts at byte 4, sized `descriptor_length - 2`, over 2-byte entries |
| Descriptors.TerrestrialFreqs | ariblib/descriptors.py:951-953 | the frequencies are the 2-byte entries tiling `descriptor_length - 2` bytes from byte 4 |
| Descriptors.DigitalCopyControlLayout | ariblib/descriptors.py:331-349 | `copy_control_type` is the 2 bits from bit 20; `with_APS` and `without_APS` are the branches on it equal and not equal to 1 |
| Descriptors.CopyControlType | ariblib/descriptors.py:341 | `copy_control_type` is bits 3-2 of byte 2 |
| Descriptors.CopyControlConditions | ariblib/descriptors.py:343-348 | the branches' conditions hold exactly when those bits equal, or differ from, 1 |
| Descriptors.WithApsPresence | ariblib/descriptors.py:343-345 | `with_APS` is present, at bit 22 with the descriptor as parent, exactly when the copy control type is 1 |
| Descriptors.WithoutApsPresence | ariblib/descriptors.py:347-349 | `without_APS` is present, at bit 22, exactly when the copy control type is not 1 |
| Descriptors.ApsTablesExclusive | ariblib/descriptors.py:343-349 | exactly one of `with_APS` and `without_APS` is present |
| Descriptors.ApsControlData | ariblib/descriptors.py:345 | `APS_control_data` is the low two bits of byte 2 |
| Descriptors.AudioComponentLayout | ariblib/descriptors.py:372-400 | `ES_multi_lingual_flag` is the one bit at bit 56, and `audio_text` is sized by the conditional expression |
| Descriptors.MultiLingualFlag | ariblib/descriptors.py:385 | `ES_multi_lingual_flag` is the top bit of byte 7, so 0 or 1 |
| Descriptors.AudioTextBytes | ariblib/descriptors.py:396-400 | `audio_text` is `descriptor_length - 12` bytes when the flag is set and `descriptor_length - 9` otherwise |
| Descriptors.AudioConditionsAgree | ariblib/descriptors.py:392-398 | the `@case(ES_multi_lingual_flag)` test and the `== 1` test of the text length agree |
| DiiDescriptors.IncreasingTagsDistinct | ariblib/diidescriptors.py:67-251 | the DII tags are declared in increasing order, so no two classes share one |
| DiiDescriptors.DiiRegistryLookup | ariblib/diidescriptors.py:22-64 | `diiDescriptor.get(t)` is the class declared with tag t, or `diiDescriptor` for a tag no class declares |
| DiiDescriptors.DiiRegistryExamples | ariblib/diidescriptors.py:117-204 | tags 0xC0, 0xC4 and 0xC5 give Expire, ProviderPrivate and StoreRoot, and the unused tag 0x06 the base class |
| DiiDescriptors.ExpireLayout | ariblib/diidescriptors.py:117-131 | `time_mode` is byte 2, followed by the branches for modes 0x01 and 0x04 |
| DiiDescriptors.TimeModeConditions | ariblib/diidescriptors.py:124-128 | a branch's condition holds exactly when byte 2 equals its mode |
| DiiDescriptors.ExpireMjdPresence | ariblib/diidescriptors.py:124-126 | the MJD branch is present, at byte 3, exactly when the mode is 1 |
| DiiDescriptors.ExpireSecondsPresence | ariblib/diidescriptors.py:128-131 | the seconds branch is present, at byte 3, exactly when the mode is 4 |
| DiiDescriptors.PassedSeconds | ariblib/diidescriptors.py:129-131 | `passed_seconds` reads bytes 4 to 7 big-endian, after the reserved byte |
| DiiDescriptors.ProviderPrivateLayout | ariblib/diidescriptors.py:180-193 | the private bytes loop starts at byte 7, sized `descriptor_length - 5`, over 1-byte entries |
| DiiDescriptors.ProviderPrivateBytes | ariblib/diidescriptors.py:191-193 | the private bytes are one entry per byte of the `descriptor_length - 5` bytes from byte 7 |
| DiiDescriptors.StoreRootLayout | ariblib/diidescriptors.py:196-204 | `update_type` is the one bit at bit 16 and the path is a `char` field sized `descriptor_length - 1` |
| DiiDescriptors.StoreRootUpdateType | ariblib/diidescriptors.py:201 | `update_type` is the top bit of byte 2 |
| DiiDescriptors.StoreRootPathLength | ariblib/diidescriptors.py:204 | the path is `descriptor_length - 1` bytes |
| Descriptors.TestCaSystemId | tests/sections/test_pmt.py:48-50 | the first descriptor of the PMT test vector reads CA system 0x05 |
| Descriptors.TestCaPid | tests/sections/test_pmt.py:48-51 | the same descriptor reads CA PID 0x31 |
| Descriptors.TestDccFields | tests/sections/test_pmt.py:53-59 | the digital-copy-control descriptor of the PMT test vector has copy control type 1 and APS control data 0; `with_APS` is present and `without_APS` absent |
| Descriptors.ServiceEntryFields | ariblib/descriptors.py:107-110 | a service entry at byte j reads `service_id` from bytes j and j+1 and `service_type` from byte j+2 |
| Descriptors.TestServiceListServices | tests/sections/test_nit.py:58-79 | the service-list descriptor of the NIT test vector holds six 3-byte services |
| Descriptors.TestServiceListFirst | tests/sections/test_nit.py:60-62 | its first service is 0x5C38 of type 0x01 |
| Descriptors.TestServiceListLast | tests/sections/test_nit.py:75-77 | its last service is 0x5DB9 of type 0xC0 |
| Descriptors.FrequencyEntryField | ariblib/descriptors.py:951-953 | a frequency entry at byte j reads bytes j and j+1 |
| Descriptors.TestTerrestrialModes | tests/sections/test_nit.py:80-84 | the terrestrial-delivery descriptor of the NIT test vector has guard interval 2 and transmission mode 2 |
| Descriptors.TestTerrestrialFreqs | tests/sections/test_nit.py:85-98 | its frequencies are eleven 2-byte entries from byte 4 |
| Descriptors.TestTerrestrialFreqEnds | tests/sections/test_nit.py:85-96 | its first frequency is 0x0E16 and its last 0x1302 |
| Memo.LenKey | ariblib/mnemonics.py:21-26 | the key `meta_cache('len')` stores a field's length under, `'_<name>_len'`; `Memo.LenKeyInjective` shows distinct names get distinct keys |
| Descriptors.Registered | ariblib/descriptors.py:21-29 | the `tags` dictionary after the `@tag` decorations in declaration order; `Descriptors.RegisteredLast` shows the last declaration of a tag wins |
| Descriptors.BaseDescriptor | ariblib/descriptors.py:53-59 | `Descriptor`: tag, length and the body read as one field of `descriptor_length` bytes |
| Descriptors.ConditionalAccess | ariblib/descriptors.py:66-76 | the 0x09 layout; `Descriptors.ConditionalAccessLayout`, `Descriptors.CaSystemId` and `Descriptors.CaPid` state where its fields are read |
| Descriptors.CopyrightAsWritten | ariblib/descriptors.py:79-86 | the 0x0D layout as written, starting with `descriptor_length`; `Descriptors.CopyrightAsWrittenMisreadsLength` shows it reads the tag as the length |
| Descriptors.Copyright | ariblib/descriptors.py:79-86 | the 0x0D layout with the tag field first, as every other descriptor declares it; `Descriptors.CopyrightReads` states its fields |
| Descriptors.NetworkName | ariblib/descriptors.py:89-96 | the 0x40 layout: the name is `descriptor_length` bytes of 8-unit text |
| Descriptors.ServiceEntry | ariblib/descriptors.py:107-110 | one 3-byte entry of the services loop; `Descriptors.ServiceEntryFields` states its fields |
| Descriptors.ServiceList | ariblib/descriptors.py:99-110 | the 0x41 layout: entries filling `descriptor_length` bytes; `Descriptors.ServiceListServices` states the loop |
| Descriptors.WithAps | ariblib/descriptors.py:343-345 | the body of `with_APS`: two bits of `APS_control_data`; `Descriptors.ApsControlData` reads them |
| Descriptors.WithoutAps | ariblib/descriptors.py:347-349 | the body of `without_APS`: two reserved bits |
| Descriptors.WithMaximumBitrate | ariblib/descriptors.py:351-353 | the body of `with_maximum_bitrate`: one byte |
| Descriptors.ComponentEntry | ariblib/descriptors.py:359-369 | one entry of the component-control loop, with its own `with_maximum_bitrate` case table |
| Descriptors.WithComponentControl | ariblib/descriptors.py:355-369 | the body of `with_component_control`: a length byte and the entries filling it |
| Descriptors.DigitalCopyControl | ariblib/descriptors.py:331-369 | the 0xC1 layout with its four case tables; `Descriptors.DigitalCopyControlLayout` and `Descriptors.ApsTablesExclusive` state it |
| Descriptors.AudioTextLength | ariblib/descriptors.py:396-400 | the length of `audio_text`: `descriptor_length - 12` with a second language, else `- 9`; `Descriptors.AudioTextBytes` reads it |
| Descriptors.AudioComponent | ariblib/descriptors.py:372-400 | the 0xC4 layout; `Descriptors.AudioComponentLayout` and `Descriptors.MultiLingualFlag` state it |
| Descriptors.FrequencyEntry | ariblib/descriptors.py:951-953 | one 2-byte entry of the `freqs` loop; `Descriptors.FrequencyEntryField` reads it |
| Descriptors.TerrestrialDelivery | ariblib/descriptors.py:940-953 | the 0xFA layout, `freqs` sized `descriptor_length - 2`; `Descriptors.TerrestrialLayout` and `Descriptors.TerrestrialFreqs` state it |
| Descriptors.Declarations | ariblib/descriptors.py:66-953 | the modelled `@tag` registrations in declaration order |
| Descriptors.SectionRegistry | ariblib/descriptors.py:21-63 | the registry `Descriptor.get` consults, with `Descriptor` for unknown tags; `Descriptors.SectionRegistryLookup` states it |
| DiiDescriptors.BaseDii | ariblib/diidescriptors.py:54-64 | `diiDescriptor`: tag, length and the body of `descriptor_length` bytes |
| DiiDescriptors.TypeDescriptor | ariblib/diidescriptors.py:67-73 | the 0x01 layout |
| DiiDescriptors.NameDescriptor | ariblib/diidescriptors.py:75-81 | the 0x02 layout |
| DiiDescriptors.InfoDescriptor | ariblib/diidescriptors.py:83-90 | the 0x03 layout |
| DiiDescriptors.ModuleLinkDescriptor | ariblib/diidescriptors.py:92-99 | the 0x04 layout |
| DiiDescriptors.Crc32Descriptor | ariblib/diidescriptors.py:101-107 | the 0x05 layout |
| DiiDescriptors.EstDownloadTimeDescriptor | ariblib/diidescriptors.py:109-115 | the 0x07 layout |
| DiiDescriptors.MjdMode | ariblib/diidescriptors.py:124-126 | the body of a `time_mode` case holding a 40-bit MJD time |
| DiiDescriptors.PassedSecondsMode | ariblib/diidescriptors.py:128-131 | the body of the `time_mode == 0x04` case: reserved bits and `passed_seconds`; `DiiDescriptors.PassedSeconds` reads it |
| DiiDescriptors.ExpireDescriptor | ariblib/diidescriptors.py:117-131 | the 0xC0 layout with its two case tables; `DiiDescriptors.ExpireLayout` and `DiiDescriptors.TimeModeConditions` state it |
| DiiDescriptors.NptMode | ariblib/diidescriptors.py:149-152 | the body of the `time_mode == 0x02` case |
| DiiDescriptors.NptLongMode | ariblib/diidescriptors.py:154-157 | the body of the `time_mode == 0x03` case |
| DiiDescriptors.ActivationTimeDescriptor | ariblib/diidescriptors.py:134-157 | the 0xC1 layout with its four case tables |
| DiiDescriptors.CompressionTypeDescriptor | ariblib/diidescriptors.py:160-166 | the 0xC2 layout |
| DiiDescriptors.ControlByte | ariblib/diidescriptors.py:175-177 | one element of the `control_data_bytes` loop |
| DiiDescriptors.ControlDescriptor | ariblib/diidescriptors.py:169-177 | the 0xC3 layout, its loop sized `descriptor_length` |
| DiiDescriptors.PrivateByte | ariblib/diidescriptors.py:191-193 | one element of the `private_bytes` loop |
| DiiDescriptors.ProviderPrivateDescriptor | ariblib/diidescriptors.py:180-193 | the 0xC4 layout, its loop sized `descriptor_length - 5`; `DiiDescriptors.ProviderPrivateLayout` and `DiiDescriptors.ProviderPrivateBytes` state it |
| DiiDescriptors.StoreRootDescriptor | ariblib/diidescriptors.py:196-204 | the 0xC5 layout; `DiiDescriptors.StoreRootLayout`, `DiiDescriptors.StoreRootUpdateType` and `DiiDescriptors.StoreRootPathLength` state it |
| DiiDescriptors.SubdirectoryDescriptor | ariblib/diidescriptors.py:207-212 | the 0xC6 layout |
| DiiDescriptors.TitleDescriptor | ariblib/diidescriptors.py:215-221 | the 0xC7 layout |
| DiiDescriptors.DataEncodingDescriptor | ariblib/diidescriptors.py:224-231 | the 0xC8 layout |
| DiiDescriptors.RootCertificateDescriptor | ariblib/diidescriptors.py:234-240 | the 0xCA header: tag, length, the one-bit `root_certificate_type` and seven reserved bits |
| DiiDescriptors.RootCertificateLayout | ariblib/diidescriptors.py:234-240 | `descriptor_length` is byte 1, `root_certificate_type` the one bit at bit 16, `reserved` the seven bits after it |
| DiiDescriptors.RootCertificateType | ariblib/diidescriptors.py:239 | `root_certificate_type` reads the top bit of byte 2 |
| DiiDescriptors.DiiDeclarations | ariblib/diidescriptors.py:67-240 | the sixteen `@tag` registrations in declaration order |
| DiiDescriptors.DiiRegistry | ariblib/diidescriptors.py:22-64 | the registry `diiDescriptor.get` consults, with `diiDescriptor` for unknown tags; `DiiDescriptors.DiiRegistryLookup` states it |
| Sections.PatLengthLayout | ariblib/sections.py:81-85 | `section_length` is the 12 bits from bit 12 of the PAT |
| Sections.PatLayout | ariblib/sections.py:86-88 | `transport_stream_id` is the 16 bits from bit 24 and `version_number` the 5 bits from bit 42 |
| Sections.PatLoopLayout | ariblib/sections.py:81-97 | the `pids` loop starts at byte 8, sized `section_length - 9`, over 4-byte entries |
| Sections.PatSectionLength | ariblib/sections.py:85 | `section_length` is the low 12 bits of bytes 1 and 2 |
| Sections.PatTransportStreamId | ariblib/sections.py:86 | `transport_stream_id` is bytes 3 and 4 big-endian |
| Sections.PatVersionNumber | ariblib/sections.py:88 | `version_number` is bits 5-1 of byte 5 |
| Sections.PatPids | ariblib/sections.py:93-97 | the `pids` entries tile `section_length - 9` bytes from byte 8, four bytes apart |
| Sections.PatEntryLayout | ariblib/sections.py:94-97 | an entry is a 16-bit `program_number` and, after 3 reserved bits, a 13-bit `program_map_PID` |
| Sections.PatEntryFields | ariblib/sections.py:94-97 | an entry at byte j reads the program number and the PMT pid of bytes j to j+3 |
| Sections.Programs | ariblib/sections.py:93-97 | `count` entries from `start` are the programs read four bytes apart |
| Sections.PatProgramsRead | ariblib/sections.py:93-97 | each tiled entry's fields read the corresponding program |
| Sections.PmtItems | ariblib/sections.py:101-106 | the loop yields `(program_number, program_map_PID)` for each entry with a non-zero program number, in order |
| Sections.PmtPids | ariblib/sections.py:108-113 | the loop yields `program_map_PID` for each entry with a non-zero program number, in order |
| Sections.ItemsMembers | ariblib/sections.py:101-106 | a pair is yielded exactly when some entry with a non-zero number carries it |
| Sections.CarriesSnoc | ariblib/sections.py:101-106 | with one more entry, the pairs carried are the old ones plus that entry's when its number is not 0 |
| Sections.ItemsAppend | ariblib/sections.py:101-113 | both generators over two runs of entries are the concatenation of their outputs |
| Sections.PmtPidsAreItemPids | ariblib/sections.py:101-113 | `pmt_pids` is the second component of `pmt_items`, entry for entry |
| Sections.TestPatHeader | tests/test_sections.py:11-35 | in the PAT of the test packet, the section length is 29, the transport stream id 0x7E87, the version 0x0C, and the loop holds 5 entries |
| Sections.TestPatPrograms | tests/test_sections.py:11-25 | the five entries are the network entry (0, 0x10) followed by four programs |
| Sections.TestPatPmtPids | tests/test_sections.py:38-43 | the PMT pairs are 0x5C38, 0x5C39, 0x5DB8, 0x5DB9 with pids 0x101, 0x102, 0x1FC8, 0x1FC9, and those pids alone |
| Sections.TestPatPids | tests/test_sections.py:26-43 | the test PAT's `pids` field reads as five entries from byte 8 |
| Sections.PmtLengthLayout | ariblib/sections.py:122-126 | the PMT's `section_length` is the 12 bits from bit 12 |
| Sections.PmtNumberLayout | ariblib/sections.py:127 | `program_number` is the 16 bits from bit 24 |
| Sections.PmtPcrLayout | ariblib/sections.py:133-134 | `PCR_PID` is the 13 bits from bit 67 |
| Sections.PmtInfoLayout | ariblib/sections.py:135-136 | `program_info_length` is the 12 bits from bit 84 |
| Sections.PmtPcrPid | ariblib/sections.py:134 | `PCR_PID` is the 13-bit pid of bytes 8 and 9 |
| Sections.PmtProgramInfoLength | ariblib/sections.py:136 | `program_info_length` is the low 12 bits of bytes 10 and 11 |
| Sections.PmtStreamLayout | ariblib/sections.py:140-145 | a stream entry is `stream_type` (8 bits), `elementary_PID` (13 bits after 3 reserved) and `ES_info_length` (12 bits after 4 reserved) |
| Sections.PmtStreamFields | ariblib/sections.py:140-145 | an entry at byte j reads its type, pid and info length from bytes j to j+4 |
| Sections.StreamPids | ariblib/sections.py:167-181 | the loop yields the `elementary_PID` of each stream whose type is in the given list, in order |
| Sections.VideoPids | ariblib/sections.py:167-173 | `video_pids` yields the pids of streams of type 0x01, 0x02 or 0x10 |
| Sections.AudioPids | ariblib/sections.py:175-181 | `audio_pids` yields the pids of streams of type 0x03, 0x04, 0x0F or 0x11 |
| Sections.SelectsSnoc | ariblib/sections.py:171-173 | with one more stream, the pids selected are the old ones plus its pid when its type is listed |
| Sections.PidsOfTypesMembers | ariblib/sections.py:171-173 | a pid is yielded exactly when some stream of a listed type has it |
| Sections.PidsOfTypesAppend | ariblib/sections.py:171-173 | the pids of two runs of streams are the concatenation of their pids |
| Sections.NoneSelected | ariblib/sections.py:171-173 | streams none of whose types are listed yield nothing |
| Sections.TestPmtHeader | tests/sections/test_pmt.py:11-45 | in the test PMT, the section length is 199, the program 0x5C38, the PCR pid 0x100, the info length 9; the first stream is type 0x02 pid 0x121 and the second type 0x0F pid 0x112 |
| Sections.TestPmtReads | tests/sections/test_pmt.py:40-81 | the fields read from the test PMT give those values |
| Sections.TestPmtAvPids | tests/sections/test_pmt.py:63-81 | the test PMT's video pids are [0x121] and its audio pids [0x112] |
| Sections.NitIdLayout | ariblib/sections.py:212-217 | the NIT's `network_id` is the 16 bits from bit 24 |
| Sections.NitDescriptorsLayout | ariblib/sections.py:223-224 | `network_descriptors_length` is the 12 bits from bit 68 |
| Sections.NitNetworkId | ariblib/sections.py:217 | `network_id` is bytes 3 and 4 big-endian |
| Sections.NitDescriptorsLength | ariblib/sections.py:224 | `network_descriptors_length` is the low 12 bits of bytes 8 and 9 |
| Sections.TestNitHeader | tests/sections/test_nit.py:11-36 | in the test NIT, the section length is 115, the network id 0x7E87, the version 3, and the descriptors take 13 bytes |
| Sections.SdtStreamLayout | ariblib/sections.py:247-252 | the SDT's `transport_stream_id` is the 16 bits from bit 24 |
| Sections.SdtNetworkLayout | ariblib/sections.py:253-258 | `original_network_id` is the 16 bits from bit 64 |
| Sections.SdtIds | ariblib/sections.py:252-258 | the two ids are bytes 3-4 and 8-9 big-endian |
| Sections.SdtServiceLayout | ariblib/sections.py:262-270 | a service entry is `service_id` then, after 3 reserved bits, the 3 user flags, the schedule flag and the present/following flag |
| Sections.SdtServiceId | ariblib/sections.py:263 | `service_id` is the entry's first two bytes big-endian |
| Sections.SdtUserDefinedFlags | ariblib/sections.py:265 | `EIT_user_defined_flags` is bits 4-2 of the entry's third byte |
| Sections.SdtScheduleFlag | ariblib/sections.py:266 | `EIT_schedule_flag` is bit 1 of the entry's third byte |
| Sections.SdtPresentFollowingFlag | ariblib/sections.py:267 | `EIT_present_following_flag` is bit 0 of the entry's third byte |
| Sections.TestSdtHeader | tests/sections/test_sdt.py:11-55 | in the test SDT, both ids are 0x7E87, the version 2, and the first service is 0x5C38 with user flags 4, both EIT flags set and 29 descriptor bytes |
| Sections.TestSdtReads | tests/sections/test_sdt.py:39-53 | the fields read from the test SDT give those values |
| SectionClasses.Range | ariblib/sections.py:29 | `range(lo, hi)` has `hi - lo` elements, exactly those from lo up to but excluding hi |
| SectionClasses.LookupNearest | ariblib/sections.py:276-287 | a class attribute is the value assigned by the nearest class along the bases, and missing exactly when none assigns it |
| SectionClasses.ResolvedClasses | ariblib/sections.py:74-295 | the PAT, NIT, SDT and BAT resolve to the pids and table ids their bodies assign |
| SectionClasses.PmtNeedsPids | ariblib/sections.py:116-120 | the PMT has no `_pids` of its own until one is assigned, and then uses it with table id 0x02 |
| SectionClasses.SdtBatShareThePid | ariblib/sections.py:240-295 | the SDT and the BAT share pid 0x11; table ids 0x42 and 0x46 go to the SDT and 0x4A to the BAT |
| SectionClasses.Registered | ariblib/packet.py:79-87 | a (pid, table id) pair goes to the last class that declares it |
| SectionClasses.ResolvedSdts | ariblib/sections.py:276-287 | the actual-stream SDT keeps 0x42 only; the other-stream SDT as written inherits 0x42 and 0x46; as intended it keeps 0x46 only |
| SectionClasses.OtherSdtAsWrittenTakesActual | ariblib/sections.py:283-287 | read with both SDT subclasses, the as-written other-stream class takes the actual stream's table id 0x42 |
| SectionClasses.OtherSdtKeepsToItsOwn | ariblib/sections.py:276-287 | as intended, table id 0x42 goes to the actual-stream class and 0x46 to the other-stream class, in either order |
| Sections.PatEntry | ariblib/sections.py:93-97 | one 4-byte entry of the PAT's `pids` loop: `program_number`, 3 reserved bits, `program_map_PID`; `Sections.PatEntryLayout` and `Sections.PatEntryFields` state it |
| Sections.Pat | ariblib/sections.py:74-99 | the `ProgramAssociationSection` layout, its loop sized `section_length - 9`; `Sections.PatLayout` and `Sections.PatLoopLayout` state it |
| Sections.PmtStream | ariblib/sections.py:139-146 | one entry of the PMT's `maps` loop; `Sections.PmtStreamLayout` and `Sections.PmtStreamFields` state it |
| Sections.Pmt | ariblib/sections.py:116-148 | the `ProgramMapSection` layout, `maps` sized `section_length - (13 + program_info_length)`; `Sections.PmtPcrLayout` and `Sections.PmtInfoLayout` state it |
| Sections.NitStream | ariblib/sections.py:229-235 | one entry of the NIT's `transport_streams` loop |
| Sections.Nit | ariblib/sections.py:205-237 | the `NetworkInformationSection` layout; `Sections.NitIdLayout` and `Sections.NitDescriptorsLayout` state it |
| Sections.SdtService | ariblib/sections.py:261-271 | one entry of the SDT's `services` loop; `Sections.SdtServiceLayout` and the `Sections.Sdt*Flag` lemmas state it |
| Sections.Sdt | ariblib/sections.py:240-273 | the `ServiceDescriptionSection` layout, `services` sized `section_length - 12`; `Sections.SdtStreamLayout` and `Sections.SdtNetworkLayout` state it |
| Sections.Items | ariblib/sections.py:101-106 | what `pmt_items` yields; `Sections.ItemsMembers` and `Sections.ItemsAppend` state which pairs and in what order |
| Sections.PmtPidsOf | ariblib/sections.py:108-113 | what `pmt_pids` yields; `Sections.PmtPidsAreItemPids` ties it to `pmt_items` |
| Sections.PidsOfTypes | ariblib/sections.py:167-181 | what `video_pids` and `audio_pids` yield for their lists of stream types; `Sections.PidsOfTypesMembers` and `Sections.PidsOfTypesAppend` state it |
| SectionClasses.Lookup | ariblib/sections.py:276-287 | Python's class-attribute lookup along the bases; `SectionClasses.LookupNearest` states it |
| SectionClasses.PidsAlong | ariblib/packet.py:80 | the `_pids` each class along the bases assigns, the attribute `sections` reads |
| SectionClasses.TableIdsAlong | ariblib/packet.py:85 | the `_table_ids` each class along the bases assigns |
| SectionClasses.Resolve | ariblib/packet.py:79-87 | the `_pids` and `_table_ids` the reader finds on a class, or none where the lookup would raise; `SectionClasses.ResolvedClasses` states them |
| SectionClasses.SectionDecl | ariblib/sections.py:22-29 | `Section` assigns every table id and no PID |
| SectionClasses.PatDecl | ariblib/sections.py:78-79 | the PAT's PID 0x00 and table id 0x00 |
| SectionClasses.PmtDecl | ariblib/sections.py:120 | the PMT's table id 0x02 and no PID of its own; `SectionClasses.PmtNeedsPids` states the consequence |
| SectionClasses.NitDecl | ariblib/sections.py:209-210 | the NIT's PID 0x10 and table ids 0x40, 0x41 |
| SectionClasses.SdtDecl | ariblib/sections.py:244-245 | the SDT's PID 0x11 and table ids 0x42, 0x46 |
| SectionClasses.ActualSdtDecl | ariblib/sections.py:276-280 | the actual-stream SDT narrows the table ids to 0x42 |
| SectionClasses.OtherSdtDeclAsWritten | ariblib/sections.py:283-287 | the other-stream SDT as written assigns `_tale_ids`, which no reader reads, so neither attribute; `SectionClasses.OtherSdtAsWrittenTakesActual` shows the effect |
| SectionClasses.OtherSdtDecl | ariblib/sections.py:283-287 | the other-stream SDT as evidently intended, table id 0x46 only; `SectionClasses.OtherSdtKeepsToItsOwn` states the effect |
| SectionClasses.BatDecl | ariblib/sections.py:294-295 | the BAT's PID 0x11 and table id 0x4A |
| SyntaxDecl.SyntaxRoot | ariblib/syntax.py:61-69 | `Syntax`, the root of the layouts: no fields, not a section |
| SyntaxDecl.SectionRoot | ariblib/sections.py:22-43 | `Section`, the root of the sections: no fields, its missing attributes raising AttributeError |
| AribStr.InCodeSetKeys | ariblib/aribstr.py:59 | a final byte is a designation key exactly when it names a DRCS or a graphic code set |
| AribStr.KanaMark | ariblib/aribstr.py:70-90 | the hiragana and katakana repetition and punctuation marks 0x77..0x7E map to their JIS X 0208 row-1 codes, the two maps differing only at 0x77 and 0x78 |
| AribStr.InGL | ariblib/aribstr.py:157 | bytes 0x21..0x7E are read through the left graphic set |
| AribStr.InGR | ariblib/aribstr.py:163 | bytes 0xA1..0xFE are read through the right graphic set |
| AribStr.Lookup | ariblib/aribstr.py:309 | an external character absent from the table becomes "??" |
| Bcd.AllOnes | ariblib/mnemonics.py:160 | a BCD time field of all 0xFF bytes is the undefined value |
| Bcd.Decimal | ariblib/mnemonics.py:145-146 | the BCD bytes are folded as x * 100 + y, most significant pair first |
| Schema.Declares | ariblib/syntax.py:92 | a name is declared when some field of the enclosing class carries it |
| Schema.PySlice | ariblib/mnemonics.py:232 | a byte field reads `packet[block:last]` with Python's clamping of the bounds, never longer than the packet |
| Schema.Pow10 | ariblib/mnemonics.py:147 | the BCD divisor `10 ** decimal_point` is at least 1 |
| Schema.EqualsInt | ariblib/mnemonics.py:303-304 | a condition `v == k` holds for an integer equal to k and for a BCD number whose scaled digits equal k |
| Schema.AmongInts | ariblib/mnemonics.py:303-304 | a condition `v in ks` holds when v equals one of the integers |
| Schema.SumNodeLengths | ariblib/mnemonics.py:289-293 | a fixed-count loop is as long as the fields of all its elements together |
| Service.Contains | ariblib/service.py:70 | `'BS' in channel_id` holds when the pattern occurs at some position |
| Table.Selected | ariblib/table.py:24 | a payload is kept exactly when its PID and its table_id are both among the requested ones |
| Text.IsSpace | ariblib/aribstr.py:207 | the characters `rstrip` removes are those Python's `str.isspace` accepts |
| Dispatch.Declares | ariblib/packet.py:84-87 | a section class declares a (PID, table_id) pair when both are among its own |
| Reassembly.Complete | ariblib/packet.py:100-112 | a buffer is one whole section when its declared length plus the three header bytes is its length and it is neither stuffing nor a PES start |

## Left out

- Bits.Uimsbf: requires the bits it reads to lie inside the packet, so it leaves out the IndexError that `p[index // 8]` raises past the end (ariblib/mnemonics.py:90-99). The schema's own read (`Schema.Get` on a fixed-width field) keeps that error as `IndexError`.
- Adaptation.AdaptationFieldLength: requires at least one byte, and the eight flag accessors (`Adaptation.DiscontinuityIndicator` through `Adaptation.AdaptationFieldExtensionFlag`) require two. On shorter input the source raises IndexError, which is not modelled.
- Packet.TransportErrorIndicator: requires the header bytes it masks, like the other header accessors. On a short packet the source raises IndexError, which is not modelled.
- Reassembly.StepSpec: takes only full 188-byte packets. `TransportStreamFile.__iter__` (ariblib/packet.py:41-53) also yields a shorter last packet when the file size is not a multiple of 188; that trailing partial packet is left out.
- Reassembly.FlushFrom: visits the buffers in the order their PIDs were first seen, which is the order `buf.items()` (ariblib/packet.py:120) follows only where dicts keep insertion order (Python 3.7 and later). Under the `python3.2` that setup.py names, the order follows hash slots; that order, which decides which leftover sections come out first and which are lost after a KeyError, is not modelled.
- Service.ParseInt: accepts only ASCII decimal digits. Python's `int(str)` also accepts any other Unicode decimal digit (`int("２７") == 27`) and, from Python 3.6, single underscores between digits (`int("2_7") == 27`). Those channel ids are not modelled: `Service.ChannelOf` reports ValueError for them where the source builds a `Service`.
- Floating point is kept only in its integer parts because Dafny has no IEEE doubles:
  - the PCR and PTS seconds (ariblib/packet.py:180, 436-441; ariblib/parse.py:56-61) become the integer PCR base;
  - for the Modified Julian Date, the day number is kept and the date conversion is left out (ariblib/mnemonics.py:335-350; ariblib/parse.py:32-47; ariblib/eit.py:30-41);
  - the `bcd` division (ariblib/mnemonics.py:147; ariblib/parse.py:20) becomes the integer decimal fold.
- The ISO-2022-JP to Unicode decode of `flush_jis_array` is the `decode` parameter of `Aribstr.Env`, because it is a foreign codec. The gaiji tables of `ariblib.aribgaiji` are the map parameters next to it, because their contents are not part of this model.
- The euc-jp decode and DRCS mapping of ariblib/caption.py, and ariblib/drcs.py are left out. The latter draws with PIL, hashes and writes files.
- The descriptor-derived attributes of `Event` (ariblib/event.py:47-100) are left out: `title`, `desc`, `video_content`, `video_component`, `video_text`, `copy_control_type`, the `audio_*` and `second_audio_*` attributes, `sampling_rate`, `group_type`, `events`, `nibble1`, `nibble2` and `user_nibble`, with the `ariblib.constants` lookups they use. Only the extended-event merge of `Event` is modelled.
- File and stream I/O are left out: `TransportStreamFile` reading and chunking, `tsopen`, and `get_caption_pid`/`get_video_pid` (ariblib/packet.py:30-57, 128-167, 183-185). Reassembly runs over an explicit sequence of 188-byte packets.
- `Table` takes the payload triples `packet.payloads` yields as a parameter.
- Schema.Get: every lookup carries a `fuel` bound. Running out gives `OutOfFuel`, which has no counterpart in the source. It stands for a lookup that never ends in Python (a `RecursionError`), and for a finite layout enough fuel always exists.
- Schema.Get: arithmetic on a non-integer, and a read at a negative bit position or with a negative length, give `Unsupported` instead of following Python's behaviour for those values.
- `Syntax.dump`/`on`/`execute`, `Section.on`/`execute` and `TransportStreamFile.on`/`execute` are left out. They print, or install callbacks.
- `otm` and `cp932` (ariblib/mnemonics.py:166-184, 212-221) are left out. They are broken or dead code.
- The empty `adaptation.pcr` (ariblib/adaptation.py:55-56) is left out. It has no body to model.
- The two case tables of the root certificate descriptor (ariblib/diidescriptors.py:242-251) are left out: a stacked `@case`/`@loop` on a loop object, which do not compose on the object they receive. Its header up to `root_certificate_type` is modelled (`DiiDescriptors.RootCertificateDescriptor`).
- `StreamIdentifierDescriptor` is used without being imported (ariblib/sections.py:162), so the PMT's `caption_pid` raises NameError. It is left out.
- The `description_length` typo (ariblib/descriptors.py:688) is left out. Its descriptor is not one the model covers.
- The `__main__` block of ariblib/aribstr.py, `ariblib/command/*.py` apart from `bits`, `crc32` and `replace_pat`, util/tsdump.py, setup.py and the aliases of ariblib/tables.py are left out.
- Section classes other than `Section`, PAT, PMT, NIT, SDT (with its two subclasses) and BAT are left out: CAT, the EITs, RST, TDT, TOT, LIT, ERT, ITT, PCAT, ST and BIT. Only their PID and table-id declarations matter to reassembly, and the model's dispatch tables take any declaration.
- Descriptor layouts are modelled only for the registry fallback and the descriptors the model covers. The others are declarative field lists of the same kinds.
- Section CRCs are read as fields, never verified, as in the source (ariblib/mnemonics.py:109-113). `Split.Crc32` is the CRC computation of ariblib/command/split.py.
- Where the library's tests call an API that is not in the code (`tsopen` on bytes, `next` on descriptor mappings, `pat.network_pid`, `pat.pmt_maps`, `ProgramMapSection.__pids__`), only their byte vectors and expected field values are used.
- Schema.Conditions: states only that a class registers at most as many case tables as it has fields. Which fields they are is stated by `SyntaxDecl.ConditionsSnoc`.
- SyntaxDecl.FieldsOf: states only a bound on the fields a class body declares. Their order and names are stated by the other `SyntaxDecl` lemmas.

## Findings

| source | as written | input that shows it | evidently intended | confidence | as-written member | corrected member |
|---|---|---|---|---|---|---|
| ariblib/packet.py:198-200 | `transport_priority(pakcet)` reads `packet`, an undefined name, so every call raises NameError | the header `47 60 00 19` (`Packet.TransportPriorityExample`): NameError instead of 1 | `(packet[1] & 0x20) >> 5`, the priority bit | not executed | `Packet.TransportPriorityAsWritten` | `Packet.TransportPriority` (proved in `Packet.TransportPriorityExample`) |
| ariblib/sections.py:48-52 | `isfull` tests `section_length <= len(self) + 3`, and the PES version tests `PES_packet_length <= len(self) + 3` (ariblib/packet.py:443-447) | the buffer `00 B0 08 00 00` (`Reassembly.IsFullAsWrittenAcceptsPartialSection`): 5 bytes, 11 needed, accepted; the end-of-stream flush then yields that partial section (`Reassembly.FlushYieldsPartialSection`) | `section_length + 3 <= len(self)`: the buffer holds the whole section | not executed | `Reassembly.IsFullAsWritten` | `Reassembly.IsFull` (proved in `Reassembly.IsFullMeansComplete`) |
| ariblib/service.py:46 | `new` is `(tsid & 0x0E000) >> 9`, a five-digit mask that takes bits 13 to 15 | tsid 0x4010 (`Service.NewFieldAsWrittenOverlapsNetwork`): `new` is 32, outside three bits, where bits 9 to 11 hold 0 | `(tsid & 0x0E00) >> 9`, bits 9 to 11, matching the four-digit masks of the other fields | not executed | `Service.NewFieldAsWritten` | `Service.NewField` (proved in `Service.ParseTsidFields`) |
| ariblib/descriptors.py:79-86 | `CopyrightDescriptor` declares `descriptor_length` first, without `descriptor_tag`, so every field reads one byte early | the descriptor `0D 04 00 00 00 01` (`Descriptors.CopyrightAsWrittenMisreadsLength`): length 13 instead of 4 | `descriptor_tag` then `descriptor_length`, as every other descriptor | not executed | `Descriptors.CopyrightAsWritten` | `Descriptors.Copyright` (proved in `Descriptors.CopyrightReads`) |
| ariblib/sections.py:283-287 | `OtherStreamServiceDescriptionSection` assigns `_tale_ids`, so it inherits the SDT's table ids 0x42 and 0x46 | reading the actual-stream and then the other-stream SDT (`SectionClasses.OtherSdtAsWrittenTakesActual`): table id 0x42 goes to the other-stream class | `_table_ids = [0x46]` | not executed | `SectionClasses.OtherSdtDeclAsWritten` | `SectionClasses.OtherSdtDecl` (proved in `SectionClasses.OtherSdtKeepsToItsOwn`) |
| ariblib/pat.py:12-17 | the loop runs while `index < section_length`, so the CRC_32 at the end of the section is yielded as one more program | a section with section_length 29 (`Walkers.PatSectionsExample`): six slices, the sixth being the CRC bytes 28..31 | stop before the CRC, at `section_length - 1` | not executed | `Walkers.PatSections` | `Walkers.PatSectionsIntended` (proved in `Walkers.PatSlicesSplitCrc` and `Walkers.PatSectionsIntendedExample`) |
