/**
 * The event wrapper of ariblib/event.py: the fields an `Event` copies from its
 * EIT section and its event entry, and the merge of extended-event items into
 * the `detail` dictionary and the `longdesc` text.
 *
 * An extended-event item is a (key, bytes) pair: the key is the decoded text
 * of `item_description_char` (what `str(key)` gives), the bytes are the raw
 * `item_char`. Turning the merged bytes into text (`str(AribString(value))`)
 * is the parameter `text`; the ARIB decoder itself is modelled in aribstr.dfy.
 */
module Event {
  import opened Wrappers
  import opened Bits
  import opened Bcd

  datatype Item = Item(key: string, text: seq<uint8>)

  /** One `(key, value)` entry of the `detail` list. */
  datatype Entry = Entry(key: string, value: seq<uint8>)

  /** The sentinel `('', [])` the merge starts from. */
  const Sentinel := Entry("", [])

  /** The items of all extended-event descriptors, in stream order. */
  function Flatten(eeds: seq<seq<Item>>): seq<Item>
  {
    if eeds == [] then [] else Flatten(eeds[..|eeds| - 1]) + eeds[|eeds| - 1]
  }

  /**
   * One item: an empty key, or the key of the last entry, extends that
   * entry's bytes; any other key starts a new entry.
   */
  function MergeStep(detail: seq<Entry>, item: Item): seq<Entry>
    requires |detail| >= 1
  {
    var last := detail[|detail| - 1];
    if item.key == "" || last.key == item.key then
      detail[..|detail| - 1] + [Entry(last.key, last.value + item.text)]
    else
      detail + [Entry(item.key, item.text)]
  }

  /** The `detail` list after all items, sentinel included. */
  function MergeAll(items: seq<Item>): (r: seq<Entry>)
    ensures |r| >= 1
  {
    if items == [] then [Sentinel] else MergeStep(MergeAll(items[..|items| - 1]), items[|items| - 1])
  }

  /** `detail[1:]`: the entries that survive, the sentinel's bytes dropped. */
  function Detail(items: seq<Item>): seq<Entry>
  {
    MergeAll(items)[1..]
  }

  lemma MergeAllAppend(items: seq<Item>, item: Item)
    ensures MergeAll(items + [item]) == MergeStep(MergeAll(items), item)
  {
    assert (items + [item])[..|items|] == items;
  }

  lemma FlattenAppend(eeds: seq<seq<Item>>, i: nat)
    requires i < |eeds|
    ensures Flatten(eeds[..i + 1]) == Flatten(eeds[..i]) + eeds[i]
  {
    assert eeds[..i + 1][..i] == eeds[..i];
  }

  /** The nested loop of `Event.__init__` over descriptors and their items. */
  method MergeDetail(eeds: seq<seq<Item>>) returns (entries: seq<Entry>)
    ensures entries == Detail(Flatten(eeds))
  {
    var detail := [Sentinel];
    var i := 0;
    while i < |eeds|
      invariant 0 <= i <= |eeds|
      invariant detail == MergeAll(Flatten(eeds[..i]))
    {
      var j := 0;
      assert Flatten(eeds[..i]) + eeds[i][..0] == Flatten(eeds[..i]);
      while j < |eeds[i]|
        invariant 0 <= j <= |eeds[i]|
        invariant detail == MergeAll(Flatten(eeds[..i]) + eeds[i][..j])
      {
        var item := eeds[i][j];
        assert Flatten(eeds[..i]) + eeds[i][..j + 1] == (Flatten(eeds[..i]) + eeds[i][..j]) + [item];
        MergeAllAppend(Flatten(eeds[..i]) + eeds[i][..j], item);
        var last := detail[|detail| - 1];
        if item.key == "" || last.key == item.key {
          detail := detail[..|detail| - 1] + [Entry(last.key, last.value + item.text)];
        } else {
          detail := detail + [Entry(item.key, item.text)];
        }
        j := j + 1;
      }
      assert eeds[i][..j] == eeds[i];
      FlattenAppend(eeds, i);
      i := i + 1;
    }
    assert eeds[..i] == eeds;
    entries := detail[1..];
  }

  /** Entries after the sentinel have non-empty keys, and neighbours never share a key. */
  predicate WellMerged(detail: seq<Entry>)
  {
    |detail| >= 1 && detail[0].key == ""
    && (forall i :: 1 <= i < |detail| ==> detail[i].key != "")
    && (forall i :: 0 <= i < |detail| - 1 ==> detail[i].key != detail[i + 1].key)
  }

  lemma {:induction false} MergeAllWellMerged(items: seq<Item>)
    ensures WellMerged(MergeAll(items))
    decreases |items|
  {
    if items != [] {
      var d := MergeAll(items[..|items| - 1]);
      MergeAllWellMerged(items[..|items| - 1]);
      var r := MergeStep(d, items[|items| - 1]);
      assert r[0].key == "";
    }
  }

  /** The non-empty keys of the items, in order. */
  function Keys(items: seq<Item>): seq<string>
  {
    if items == [] then []
    else
      var rest := Keys(items[..|items| - 1]);
      if items[|items| - 1].key == "" then rest else rest + [items[|items| - 1].key]
  }

  /** Appends a key unless it repeats the last one. */
  function CollapseStep(keys: seq<string>, k: string): seq<string>
  {
    if keys != [] && keys[|keys| - 1] == k then keys else keys + [k]
  }

  /** A key sequence with runs of equal neighbours collapsed to one. */
  function Collapse(keys: seq<string>): seq<string>
  {
    if keys == [] then [] else CollapseStep(Collapse(keys[..|keys| - 1]), keys[|keys| - 1])
  }

  function EntryKeys(entries: seq<Entry>): (r: seq<string>)
    ensures |r| == |entries|
    ensures forall i :: 0 <= i < |entries| ==> r[i] == entries[i].key
  {
    if entries == [] then [] else EntryKeys(entries[..|entries| - 1]) + [entries[|entries| - 1].key]
  }

  /** Entry lists with the same keys position by position have the same key sequence. */
  lemma EntryKeysSame(a: seq<Entry>, b: seq<Entry>)
    requires |a| == |b|
    requires forall i :: 0 <= i < |a| ==> a[i].key == b[i].key
    ensures EntryKeys(a) == EntryKeys(b)
  {
    assert forall i :: 0 <= i < |a| ==> EntryKeys(a)[i] == EntryKeys(b)[i];
  }

  lemma EntryKeysAppend(a: seq<Entry>, e: Entry)
    ensures EntryKeys(a + [e]) == EntryKeys(a) + [e.key]
  {
    assert (a + [e])[..|a|] == a;
  }

  /** Extending the last entry keeps the keys. */
  lemma StepKeysExtend(d: seq<Entry>, item: Item)
    requires |d| >= 1
    requires item.key == "" || d[|d| - 1].key == item.key
    ensures EntryKeys(MergeStep(d, item)[1..]) == EntryKeys(d[1..])
  {
    var r := MergeStep(d, item);
    assert |r| == |d|;
    assert forall i :: 0 <= i < |d| ==> r[i].key == d[i].key;
    EntryKeysSame(r[1..], d[1..]);
  }

  /** One merge step on the keys: an empty key changes nothing, any other key is collapsed in. */
  lemma StepKeys(d: seq<Entry>, item: Item, c: seq<string>)
    requires WellMerged(d)
    requires EntryKeys(d[1..]) == c
    ensures EntryKeys(MergeStep(d, item)[1..]) == if item.key == "" then c else CollapseStep(c, item.key)
  {
    var last := d[|d| - 1];
    if item.key == "" || last.key == item.key {
      StepKeysExtend(d, item);
      if item.key != "" {
        assert |d| >= 2;
        assert c[|c| - 1] == d[|d| - 1].key;
      }
    } else {
      assert MergeStep(d, item)[1..] == d[1..] + [Entry(item.key, item.text)];
      EntryKeysAppend(d[1..], Entry(item.key, item.text));
      assert |d| >= 2 ==> c[|c| - 1] == d[|d| - 1].key;
    }
  }

  /**
   * The entries' keys are the non-empty item keys with consecutive repeats
   * collapsed: a repeat that is not consecutive starts a separate entry.
   */
  lemma {:induction false} DetailKeys(items: seq<Item>)
    ensures EntryKeys(Detail(items)) == Collapse(Keys(items))
    decreases |items|
  {
    if items != [] {
      var pre := items[..|items| - 1];
      var item := items[|items| - 1];
      DetailKeys(pre);
      MergeAllWellMerged(pre);
      StepKeys(MergeAll(pre), item, Collapse(Keys(pre)));
      if item.key != "" {
        assert Keys(items)[..|Keys(items)| - 1] == Keys(pre);
      }
    }
  }

  /** All bytes of the entries, sentinel included, in order. */
  function Values(entries: seq<Entry>): seq<uint8>
  {
    if entries == [] then [] else Values(entries[..|entries| - 1]) + entries[|entries| - 1].value
  }

  /** All bytes of the items, in order. */
  function Texts(items: seq<Item>): seq<uint8>
  {
    if items == [] then [] else Texts(items[..|items| - 1]) + items[|items| - 1].text
  }

  /** The merge loses and reorders no byte: the entries hold exactly the items' bytes. */
  lemma {:induction false} MergeKeepsBytes(items: seq<Item>)
    ensures Values(MergeAll(items)) == Texts(items)
    decreases |items|
  {
    if items != [] {
      var pre := items[..|items| - 1];
      var item := items[|items| - 1];
      MergeKeepsBytes(pre);
      var d := MergeAll(pre);
      var last := d[|d| - 1];
      if item.key == "" || last.key == item.key {
        var r := d[..|d| - 1] + [Entry(last.key, last.value + item.text)];
        assert r[..|r| - 1] == d[..|d| - 1];
        assert Values(r) == Values(d[..|d| - 1]) + last.value + item.text;
        assert Values(d) == Values(d[..|d| - 1]) + last.value;
      } else {
        var r := d + [Entry(item.key, item.text)];
        assert r[..|r| - 1] == d;
      }
    }
  }

  /** Once a keyed entry exists, no later item touches the sentinel. */
  lemma {:induction false} SentinelSettled(a: seq<Item>, b: seq<Item>)
    requires |MergeAll(a)| >= 2
    ensures |MergeAll(a + b)| >= 2
    ensures MergeAll(a + b)[0] == MergeAll(a)[0]
    decreases |b|
  {
    if b == [] {
      assert a + b == a;
    } else {
      var b0 := b[..|b| - 1];
      SentinelSettled(a, b0);
      assert a + b == (a + b0) + [b[|b| - 1]];
      MergeAllAppend(a + b0, b[|b| - 1]);
    }
  }

  /** Items that come before any keyed item all land on the sentinel. */
  lemma {:induction false} UnkeyedPrefix(pre: seq<Item>)
    requires forall i :: 0 <= i < |pre| ==> pre[i].key == ""
    ensures MergeAll(pre) == [Entry("", Texts(pre))]
    decreases |pre|
  {
    if pre != [] {
      UnkeyedPrefix(pre[..|pre| - 1]);
    }
  }

  /**
   * The bytes of the items before the first keyed item stay on the sentinel
   * and are dropped with it; the first keyed item opens the first entry.
   */
  lemma UnkeyedPrefixDiscarded(pre: seq<Item>, first: Item, post: seq<Item>)
    requires forall i :: 0 <= i < |pre| ==> pre[i].key == ""
    requires first.key != ""
    ensures MergeAll(pre + [first] + post)[0] == Entry("", Texts(pre))
    ensures |Detail(pre + [first] + post)| >= 1
    ensures Detail(pre + [first] + post)[0].key == first.key
  {
    UnkeyedPrefix(pre);
    MergeAllAppend(pre, first);
    assert MergeAll(pre + [first]) == [Entry("", Texts(pre)), Entry(first.key, first.text)];
    SentinelSettled(pre + [first], post);
    MergeAllWellMerged(pre + [first] + post);
    DetailKeys(pre + [first] + post);
    KeysOfKeyedPrefix(pre, first, post);
  }

  lemma {:induction false} KeysOfKeyedPrefix(pre: seq<Item>, first: Item, post: seq<Item>)
    requires forall i :: 0 <= i < |pre| ==> pre[i].key == ""
    requires first.key != ""
    ensures Collapse(Keys(pre + [first] + post)) != []
    ensures Collapse(Keys(pre + [first] + post))[0] == first.key
    decreases |post|
  {
    if post == [] {
      UnkeyedKeys(pre);
      assert (pre + [first] + post)[..|pre|] == pre;
      assert Keys(pre + [first] + post) == [first.key];
    } else {
      var post0 := post[..|post| - 1];
      KeysOfKeyedPrefix(pre, first, post0);
      var all := pre + [first] + post;
      assert all[..|all| - 1] == pre + [first] + post0;
      var ks := Keys(pre + [first] + post0);
      assert Keys(all) == ks || Keys(all) == ks + [post[|post| - 1].key];
      CollapseExtends(ks, Keys(all));
    }
  }

  lemma UnkeyedKeys(pre: seq<Item>)
    requires forall i :: 0 <= i < |pre| ==> pre[i].key == ""
    ensures Keys(pre) == []
  {
    if pre != [] {
      UnkeyedKeys(pre[..|pre| - 1]);
    }
  }

  lemma CollapseExtends(ks: seq<string>, ks2: seq<string>)
    requires Collapse(ks) != []
    requires ks2 == ks || (|ks2| == |ks| + 1 && ks2[..|ks|] == ks)
    ensures Collapse(ks2) != [] && Collapse(ks2)[0] == Collapse(ks)[0]
  {
    if ks2 != ks {
      assert ks2[..|ks2| - 1] == ks;
    }
  }

  lemma {:induction false} CollapseEmpty(keys: seq<string>)
    ensures Collapse(keys) == [] <==> keys == []
  {
  }

  lemma {:induction false} KeysEmpty(items: seq<Item>)
    ensures Keys(items) == [] <==> forall i :: 0 <= i < |items| ==> items[i].key == ""
    decreases |items|
  {
    if items != [] {
      var pre := items[..|items| - 1];
      KeysEmpty(pre);
      assert forall i :: 0 <= i < |pre| ==> pre[i] == items[i];
    }
  }

  /** There is an entry, so `detail` and `longdesc` are set, exactly when some item has a key. */
  lemma DetailNonEmpty(items: seq<Item>)
    ensures Detail(items) != [] <==> exists i :: 0 <= i < |items| && items[i].key != ""
  {
    DetailKeys(items);
    CollapseEmpty(Keys(items));
    KeysEmpty(items);
  }

  /** `dict(detail)`: entries inserted in order, so a later entry replaces an earlier one with its key. */
  function DictOf(entries: seq<Entry>): map<string, seq<uint8>>
  {
    if entries == [] then map[]
    else DictOf(entries[..|entries| - 1])[entries[|entries| - 1].key := entries[|entries| - 1].value]
  }

  /** The dictionary has a key exactly when some entry has it. */
  lemma {:induction false} DictOfKeys(entries: seq<Entry>, k: string)
    ensures k in DictOf(entries) <==> exists i :: 0 <= i < |entries| && entries[i].key == k
    decreases |entries|
  {
    if entries != [] {
      var pre := entries[..|entries| - 1];
      DictOfKeys(pre, k);
      assert forall i :: 0 <= i < |pre| ==> pre[i] == entries[i];
    }
  }

  /** The value under a key is that of the last entry with the key. */
  lemma {:induction false} DictOfLaterWins(entries: seq<Entry>, j: nat)
    requires j < |entries|
    requires forall l :: j < l < |entries| ==> entries[l].key != entries[j].key
    ensures entries[j].key in DictOf(entries)
    ensures DictOf(entries)[entries[j].key] == entries[j].value
    decreases |entries|
  {
    if j < |entries| - 1 {
      var pre := entries[..|entries| - 1];
      assert pre[j] == entries[j];
      DictOfLaterWins(pre, j);
    }
  }

  /** `"{}\n{}\n".format(key, value)` with the value decoded by `text`. */
  function Block(e: Entry, text: seq<uint8> -> string): string
  {
    e.key + "\n" + text(e.value) + "\n"
  }

  /** `'\n'.join(...)` over the blocks of the entries. */
  function LongDesc(entries: seq<Entry>, text: seq<uint8> -> string): string
  {
    if entries == [] then ""
    else if |entries| == 1 then Block(entries[0], text)
    else LongDesc(entries[..|entries| - 1], text) + "\n" + Block(entries[|entries| - 1], text)
  }

  /** The total length of the blocks. */
  function BlocksLength(entries: seq<Entry>, text: seq<uint8> -> string): nat
  {
    if entries == [] then 0 else BlocksLength(entries[..|entries| - 1], text) + |Block(entries[|entries| - 1], text)|
  }

  /** `longdesc` is the blocks and one separator between each two of them. */
  lemma {:induction false} LongDescLength(entries: seq<Entry>, text: seq<uint8> -> string)
    requires entries != []
    ensures |LongDesc(entries, text)| == BlocksLength(entries, text) + |entries| - 1
    decreases |entries|
  {
    if |entries| > 1 {
      LongDescLength(entries[..|entries| - 1], text);
    } else {
      assert entries[..0] == [];
    }
  }

  /** Every block, and so the whole text, ends with a line feed; the first starts with the first key. */
  lemma {:induction false} LongDescShape(entries: seq<Entry>, text: seq<uint8> -> string)
    requires entries != []
    ensures |LongDesc(entries, text)| > |entries[0].key|
    ensures LongDesc(entries, text)[..|entries[0].key| + 1] == entries[0].key + "\n"
    ensures LongDesc(entries, text)[|LongDesc(entries, text)| - 1] == '\n'
    decreases |entries|
  {
    if |entries| > 1 {
      var pre := entries[..|entries| - 1];
      LongDescShape(pre, text);
      var l := LongDesc(pre, text);
      assert LongDesc(entries, text) == l + ("\n" + Block(entries[|entries| - 1], text));
      assert LongDesc(entries, text)[..|entries[0].key| + 1] == l[..|entries[0].key| + 1];
    }
  }

  /** The EIT fields an event copies. */
  datatype EitHeader = EitHeader(serviceId: nat, transportStreamId: nat, originalNetworkId: nat)

  /** The event-entry fields an event copies, and the items of its extended-event descriptors. */
  datatype EventEntry = EventEntry(eventId: nat, startTime: Option<MjdStamp>, duration: Option<Hms>,
                                   freeCaMode: nat, extended: seq<seq<Item>>)

  /** `Event`: `detail` and `longdesc` are `None` where the source leaves the attribute unset. */
  class Event {
    var serviceId: nat
    var transportStreamId: nat
    var originalNetworkId: nat
    var eventId: nat
    var startTime: Option<MjdStamp>
    var duration: Option<Hms>
    var freeCaMode: nat
    var detail: Option<map<string, seq<uint8>>>
    var longdesc: Option<string>

    constructor(eit: EitHeader, event: EventEntry, text: seq<uint8> -> string)
      ensures serviceId == eit.serviceId && transportStreamId == eit.transportStreamId
      ensures originalNetworkId == eit.originalNetworkId
      ensures eventId == event.eventId && startTime == event.startTime
      ensures duration == event.duration && freeCaMode == event.freeCaMode
      ensures detail == if Detail(Flatten(event.extended)) == [] then None
                        else Some(DictOf(Detail(Flatten(event.extended))))
      ensures longdesc == if Detail(Flatten(event.extended)) == [] then None
                          else Some(LongDesc(Detail(Flatten(event.extended)), text))
    {
      serviceId := eit.serviceId;
      transportStreamId := eit.transportStreamId;
      originalNetworkId := eit.originalNetworkId;
      eventId := event.eventId;
      startTime := event.startTime;
      duration := event.duration;
      freeCaMode := event.freeCaMode;
      var entries := MergeDetail(event.extended);
      if entries != [] {
        detail := Some(DictOf(entries));
        longdesc := Some(LongDesc(entries, text));
      } else {
        detail := None;
        longdesc := None;
      }
    }
  }
}
