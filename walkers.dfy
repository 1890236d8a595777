/**
 * The byte walkers of the later API: the tag/length descriptor slicer
 * (ariblib/descriptor.py) and the entry loops and accessors of the PAT, PMT
 * and EIT helpers (ariblib/pat.py, ariblib/pmt.py, ariblib/eit.py).
 *
 * Each walker is a Python generator over a byte string. Slicing never raises
 * (a declared length that runs past the data gives a shorter slice), while
 * indexing a missing byte raises IndexError; a generator yields the slices
 * it has produced before that.
 */
module Walkers {
  import opened Wrappers
  import opened Bits
  import opened Slices
  import opened Packet
  import opened Bcd

  /** What a generator yields before it is exhausted, or raises. */
  datatype Yielded<T> = Yielded(items: seq<T>, raised: Option<PacketError>)

  function Cons<T>(x: T, y: Yielded<T>): Yielded<T>
  {
    Yielded([x] + y.items, y.raised)
  }

  /** What a generator has yielded so far, followed by what it yields from here on. */
  function Prefix<T>(items: seq<T>, y: Yielded<T>): Yielded<T>
  {
    Yielded(items + y.items, y.raised)
  }

  lemma PrefixCons<T>(items: seq<T>, x: T, y: Yielded<T>)
    ensures Prefix(items, Cons(x, y)) == Prefix(items + [x], y)
  {
    assert items + ([x] + y.items) == (items + [x]) + y.items;
  }

  /**
   * `((t[i] & 0x0F) << 8) | t[i + 1]`, the 12-bit length fields of these
   * tables; a missing byte raises IndexError at the first index read.
   */
  function Read12(t: seq<uint8>, i: nat): (r: Result<nat, PacketError>)
    ensures r.Ok? <==> i + 1 < |t|
    ensures r.Ok? ==> r.value < 0x1000
  {
    if i + 1 >= |t| then Err(IndexError(if i < |t| then i + 1 else i))
    else
      var hi: nat := t[i] % 16;
      Ok(hi * 256 + t[i + 1])
  }

  /** The 12-bit length is the source's expression and the schema read of the low 12 bits of the two bytes. */
  lemma Read12Field(t: seq<uint8>, i: nat, bit: nat)
    requires i + 1 < |t| && bit == 8 * i + 4
    ensures Read12(t, i).value == BitOr(ShiftLeft(BitAnd(t[i], 0x0F), 8), t[i + 1])
    ensures InRange(t, bit, 12) && Read12(t, i).value == Uimsbf(t, bit, 12)
  {
    var q := t[i..];
    Read12AtStart(q);
    assert q[0] == t[i] && q[1] == t[i + 1];
    UimsbfDrop(t, i, 4, bit, 12);
  }

  lemma Read12AtStart(q: seq<uint8>)
    requires |q| >= 2
    ensures Read12(q, 0).value == BitOr(ShiftLeft(BitAnd(q[0], 0x0F), 8), q[1])
    ensures InRange(q, 4, 12) && Read12(q, 0).value == Uimsbf(q, 4, 12)
  {
    assert Pow2(4) == 16 && Pow2(8) == 256;
    MaskLow(q[0], 4);
    JoinedValue(BitAnd(q[0], 0x0F), q[1], 8);
    UimsbfConcat(q, 4, 4, 12, 8, 8);
    UimsbfOneByte(q, 4, 4, 0, 4, 4, 0);
    UimsbfOneByte(q, 8, 8, 1, 0, 8, 0);
    DivModUnique(q[0] % 16, 1, q[0] % 16, 0);
    DivModUnique(q[1], 256, 0, q[1]);
    DivModUnique(q[1], 1, q[1], 0);
  }

  // ---------------------------------------------------------------------
  // descriptor.py

  /** The slices `descriptors(p)` yields from `index` on: tag, length, then `length` body bytes. */
  function DescriptorsFrom(p: seq<uint8>, index: nat): Yielded<seq<uint8>>
    decreases |p| - index
  {
    if index >= |p| then Yielded([], None)
    else if index + 1 >= |p| then Yielded([], Some(IndexError(index + 1)))
    else
      var last: nat := p[index + 1] as nat + 2;
      Cons(Slice(p, index, index + last), DescriptorsFrom(p, index + last))
  }

  /** The `descriptors` generator: a cursor loop from index 0. */
  method Descriptors(p: seq<uint8>) returns (y: Yielded<seq<uint8>>)
    ensures y == DescriptorsFrom(p, 0)
  {
    var items: seq<seq<uint8>> := [];
    var index: nat := 0;
    while index < |p|
      invariant DescriptorsFrom(p, 0) == Prefix(items, DescriptorsFrom(p, index))
      decreases |p| - index
    {
      if index + 1 >= |p| {
        return Yielded(items, Some(IndexError(index + 1)));
      }
      var last: nat := p[index + 1] as nat + 2;
      var d := Slice(p, index, index + last);
      DescriptorsStep(p, index, last);
      PrefixCons(items, d, DescriptorsFrom(p, index + last));
      items := items + [d];
      index := index + last;
    }
    return Yielded(items, None);
  }

  lemma DescriptorsStep(p: seq<uint8>, index: nat, last: nat)
    requires index + 1 < |p| && last == p[index + 1] as nat + 2
    ensures DescriptorsFrom(p, index) == Cons(Slice(p, index, index + last), DescriptorsFrom(p, index + last))
  {
  }

  /** A descriptor whose length byte counts exactly its body. */
  predicate WellFormedDescriptor(d: seq<uint8>)
  {
    |d| >= 2 && |d| == d[1] as nat + 2
  }

  /**
   * Joined, the slices of a walk from `index` give back everything from
   * `index` on, except a lone trailing byte whose length byte is missing,
   * which raises.
   */
  ghost predicate Covers(p: seq<uint8>, index: nat, y: Yielded<seq<uint8>>)
  {
    (y.raised.None? ==> Concat(y.items) == From(p, index)) &&
    (y.raised.Some? ==> y.raised == Some(IndexError(|p|)) && |p| >= 1 && Concat(y.items) + [p[|p| - 1]] == From(p, index))
  }

  /** The slices are contiguous and cover the input. */
  lemma {:induction false} DescriptorsCover(p: seq<uint8>, index: nat)
    ensures Covers(p, index, DescriptorsFrom(p, index))
    decreases |p| - index
  {
    if index + 1 < |p| {
      var last: nat := p[index + 1] as nat + 2;
      DescriptorsCover(p, index + last);
      CoverCons(p, index, last);
    } else {
      CoverEnd(p, index);
    }
  }

  /** A walk whose rest covers the string after its first slice covers it from the start. */
  lemma CoverCons(p: seq<uint8>, index: nat, last: nat)
    requires index + 1 < |p| && last == p[index + 1] as nat + 2
    requires Covers(p, index + last, DescriptorsFrom(p, index + last))
    ensures Covers(p, index, DescriptorsFrom(p, index))
  {
    var d, rest, y := Slice(p, index, index + last), DescriptorsFrom(p, index + last), DescriptorsFrom(p, index);
    DescriptorsStep(p, index, last);
    CoverStep(p, index, index + last, d, rest, y);
  }

  /** A walk that starts at the last byte or past the end covers what is left. */
  lemma CoverEnd(p: seq<uint8>, index: nat)
    requires index + 1 >= |p|
    ensures Covers(p, index, DescriptorsFrom(p, index))
  {
    if index < |p| {
      assert DescriptorsFrom(p, index) == Yielded([], Some(IndexError(index + 1)));
      assert From(p, index) == [p[|p| - 1]];
    } else {
      assert From(p, index) == [];
    }
  }

  /** One piece in front of a walk that covers the rest of the string covers it from the piece on. */
  lemma CoverStep(p: seq<uint8>, index: nat, next: nat, d: seq<uint8>, rest: Yielded<seq<uint8>>, y: Yielded<seq<uint8>>)
    requires index <= next && d == Slice(p, index, next) && y == Cons(d, rest)
    requires Covers(p, next, rest)
    ensures Covers(p, index, y)
  {
    ConcatCons(d, rest.items);
    SliceFrom(p, index, next);
    if rest.raised.Some? {
      Regroup3(d, Concat(rest.items), [p[|p| - 1]]);
    }
  }

  /** Every slice holds a tag and a length byte and never more than the length byte declares; all but the last hold exactly that. */
  lemma {:induction false} DescriptorsShape(p: seq<uint8>, index: nat)
    ensures var items := DescriptorsFrom(p, index).items;
      forall k :: 0 <= k < |items| ==> (|items[k]| >= 2 && |items[k]| <= items[k][1] as nat + 2 &&
        (k + 1 < |items| ==> WellFormedDescriptor(items[k])))
    decreases |p| - index
  {
    if index < |p| && index + 1 < |p| {
      var last: nat := p[index + 1] as nat + 2;
      DescriptorsShape(p, index + last);
      var items, rest := DescriptorsFrom(p, index).items, DescriptorsFrom(p, index + last).items;
      var d := Slice(p, index, index + last);
      DescriptorsStep(p, index, last);
      assert items == [d] + rest;
      if index + last >= |p| {
        assert rest == [];
      }
      forall k | 0 <= k < |items|
        ensures |items[k]| >= 2 && |items[k]| <= items[k][1] as nat + 2 && (k + 1 < |items| ==> WellFormedDescriptor(items[k]))
      {
        if k > 0 {
          assert items[k] == rest[k - 1];
        }
      }
    }
  }

  /** Round trip: well-formed descriptors placed back to back are sliced back into exactly themselves. */
  lemma {:induction false} DescriptorsOfConcat(pre: seq<uint8>, ds: seq<seq<uint8>>)
    requires forall k :: 0 <= k < |ds| ==> WellFormedDescriptor(ds[k])
    ensures DescriptorsFrom(pre + Concat(ds), |pre|) == Yielded(ds, None)
    decreases |ds|
  {
    if ds != [] {
      var d, tail := ds[0], ds[1..];
      assert ds == [d] + tail;
      assert WellFormedDescriptor(d);
      assert forall k :: 0 <= k < |tail| ==> WellFormedDescriptor(tail[k]) by {
        forall k | 0 <= k < |tail| ensures WellFormedDescriptor(tail[k]) {
          assert tail[k] == ds[k + 1];
        }
      }
      var rest := Concat(tail);
      DescriptorsOfConcat(pre + d, tail);
      ConcatCons(d, tail);
      Regroup3(pre, d, rest);
      PieceAt(pre, d, rest);
      DescriptorsStep(pre + d + rest, |pre|, |d|);
    }
  }

  /** A piece placed after `pre` is read back by index and by slice. */
  lemma PieceAt(pre: seq<uint8>, d: seq<uint8>, rest: seq<uint8>)
    ensures forall k :: 0 <= k < |d| ==> (pre + d + rest)[|pre| + k] == d[k]
    ensures Slice(pre + d + rest, |pre|, |pre| + |d|) == d
  {
    assert (pre + d + rest)[|pre|..|pre| + |d|] == d;
  }

  // ---------------------------------------------------------------------
  // pat.py

  /** The 4-byte slices from `index` up to `sectionLength`. */
  function PatSlicesFrom(t: seq<uint8>, n: nat, index: nat): (r: seq<seq<uint8>>)
    decreases n - index
  {
    if index >= n then [] else [Slice(t, index, index + 4)] + PatSlicesFrom(t, n, index + 4)
  }

  /** `pat.sections(table)`: reads `section_length`, then slices 4 bytes at a time from offset 8. */
  function PatSections(t: seq<uint8>): Result<seq<seq<uint8>>, PacketError>
  {
    match Read12(t, 1)
    case Err(e) => Err(e)
    case Ok(n) => Ok(PatSlicesFrom(t, n, 8))
  }

  method PatSectionsLoop(t: seq<uint8>) returns (r: Result<seq<seq<uint8>>, PacketError>)
    ensures r == PatSections(t)
  {
    var len := Read12(t, 1);
    if len.Err? {
      return Err(len.error);
    }
    var n := len.value;
    var items: seq<seq<uint8>> := [];
    var index: nat := 8;
    while index < n
      invariant PatSlicesFrom(t, n, 8) == items + PatSlicesFrom(t, n, index)
      decreases n as int - index
    {
      assert PatSlicesFrom(t, n, index) == [Slice(t, index, index + 4)] + PatSlicesFrom(t, n, index + 4);
      items := items + [Slice(t, index, index + 4)];
      index := index + 4;
    }
    assert PatSlicesFrom(t, n, index) == [];
    assert items + [] == items;
    assert PatSections(t) == Ok(PatSlicesFrom(t, n, 8));
    return Ok(items);
  }

  /**
   * With `section_length == index + 1 + 4 * c` (c program entries from
   * `index`), the walker yields the c entries and then one more slice: the
   * CRC bytes, at offsets `section_length - 1 .. section_length + 3`.
   */
  lemma {:induction false} PatSlicesIncludeCrc(t: seq<uint8>, n: nat, c: nat, index: nat)
    requires n == index + 1 + 4 * c
    ensures var r := PatSlicesFrom(t, n, index);
      |r| == c + 1 && r[c] == Slice(t, n - 1, n + 3) && r[0] == Slice(t, index, index + 4)
    decreases c
  {
    var r := PatSlicesFrom(t, n, index);
    if c > 0 {
      PatSlicesIncludeCrc(t, n, c - 1, index + 4);
      var rest := PatSlicesFrom(t, n, index + 4);
      assert r == [Slice(t, index, index + 4)] + rest;
      assert r[c] == rest[c - 1];
    } else {
      assert PatSlicesFrom(t, n, index + 4) == [];
    }
  }

  /** The test PAT's `section_length` of 29 yields six slices, the last being the CRC. */
  lemma PatSectionsExample(t: seq<uint8>)
    requires |t| >= 3 && t[1] == 0xB0 && t[2] == 0x1D
    ensures PatSections(t).Ok? && |PatSections(t).value| == 6
    ensures PatSections(t).value[5] == Slice(t, 28, 32)
  {
    PatSlicesIncludeCrc(t, 29, 5, 8);
  }

  /**
   * `pat.sections` as evidently intended: the program loop ends where the
   * 4-byte CRC_32 begins, at `section_length - 1` (the section ends at byte
   * `3 + section_length`).
   */
  function PatSectionsIntended(t: seq<uint8>): Result<seq<seq<uint8>>, PacketError>
  {
    match Read12(t, 1)
    case Err(e) => Err(e)
    case Ok(n) => Ok(PatSlicesFrom(t, if n == 0 then 0 else n - 1, 8))
  }

  /** The k-th slice of the walk is the four bytes at `index + 4 * k`, while that is below the bound. */
  lemma {:induction false} PatSliceAt(t: seq<uint8>, m: nat, index: nat, k: nat)
    requires index + 4 * k < m
    ensures k < |PatSlicesFrom(t, m, index)| && PatSlicesFrom(t, m, index)[k] == Slice(t, index + 4 * k, index + 4 * k + 4)
    decreases k
  {
    assert PatSlicesFrom(t, m, index) == [Slice(t, index, index + 4)] + PatSlicesFrom(t, m, index + 4);
    if k > 0 {
      assert index + 4 * k == (index + 4) + 4 * (k - 1);
      PatSliceAt(t, m, index + 4, k - 1);
    }
  }

  /**
   * With `section_length == index + 1 + 4 * c`, the walk as written is the
   * intended walk followed by the CRC slice, and the intended walk has
   * exactly the c program entries.
   */
  lemma {:induction false} PatSlicesSplitCrc(t: seq<uint8>, n: nat, c: nat, index: nat)
    requires n == index + 1 + 4 * c
    ensures PatSlicesFrom(t, n, index) == PatSlicesFrom(t, n - 1, index) + [Slice(t, n - 1, n + 3)]
    ensures |PatSlicesFrom(t, n - 1, index)| == c
    decreases c
  {
    if c > 0 {
      PatSlicesSplitCrc(t, n, c - 1, index + 4);
      assert PatSlicesFrom(t, n - 1, index) == [Slice(t, index, index + 4)] + PatSlicesFrom(t, n - 1, index + 4);
      assert PatSlicesFrom(t, n, index) == [Slice(t, index, index + 4)] + PatSlicesFrom(t, n, index + 4);
    } else {
      assert PatSlicesFrom(t, n - 1, index) == [];
      assert PatSlicesFrom(t, n, index + 4) == [];
    }
  }

  /** Each slice of the intended walk is a whole program entry lying before the CRC. */
  lemma PatEntryBeforeCrc(t: seq<uint8>, n: nat, c: nat, index: nat, k: nat)
    requires n == index + 1 + 4 * c && k < c
    ensures index + 4 * k + 4 <= n - 1
    ensures k < |PatSlicesFrom(t, n - 1, index)|
    ensures PatSlicesFrom(t, n - 1, index)[k] == Slice(t, index + 4 * k, index + 4 * k + 4)
  {
    PatSliceAt(t, n - 1, index, k);
  }

  /** For the test PAT's `section_length` of 29, the intended walk yields the five program entries and no CRC. */
  lemma PatSectionsIntendedExample(t: seq<uint8>)
    requires |t| >= 3 && t[1] == 0xB0 && t[2] == 0x1D
    ensures PatSectionsIntended(t).Ok? && |PatSectionsIntended(t).value| == 5
    ensures PatSections(t).Ok? && PatSections(t).value == PatSectionsIntended(t).value + [Slice(t, 28, 32)]
  {
    PatSlicesSplitCrc(t, 29, 5, 8);
  }

  /** A (program_number, PID) pair: `(s[0] << 8) | s[1]` and `((s[2] & 0x1F) << 8) | s[3]`. */
  function ProgramEntry(s: seq<uint8>): (r: Result<(nat, nat), PacketError>)
    ensures r.Err? <==> |s| < 4
    ensures r.Ok? ==> r.value.0 < 0x10000 && r.value.1 < 0x2000
  {
    if |s| < 4 then Err(IndexError(|s|))
    else
      var pn: nat := s[0];
      var hi: nat := s[2] % 32;
      Ok((pn * 256 + s[1], hi * 256 + s[3]))
  }

  /** `program_numbers(table)`: each slice decoded in turn, stopping at the first short one. */
  function ProgramNumbers(t: seq<uint8>): Yielded<(nat, nat)>
  {
    match PatSections(t)
    case Err(e) => Yielded([], Some(e))
    case Ok(slices) => EntriesOf(slices)
  }

  function EntriesOf(slices: seq<seq<uint8>>): Yielded<(nat, nat)>
  {
    if slices == [] then Yielded([], None)
    else
      match ProgramEntry(slices[0])
      case Err(e) => Yielded([], Some(e))
      case Ok(pair) => Cons(pair, EntriesOf(slices[1..]))
  }

  /** The PIDs of the pairs whose program number is not 0, in order. */
  function NonZeroPrograms(pairs: seq<(nat, nat)>): seq<nat>
  {
    if pairs == [] then []
    else (if pairs[0].0 != 0 then [pairs[0].1] else []) + NonZeroPrograms(pairs[1..])
  }

  /** `pmt_pids` for one table: the list comprehension raises if the generator does. */
  function PmtPids(t: seq<uint8>): Result<seq<nat>, PacketError>
  {
    var y := ProgramNumbers(t);
    if y.raised.Some? then Err(y.raised.value) else Ok(NonZeroPrograms(y.items))
  }

  /** The filter keeps a PID exactly when some pair carries it with a non-zero program number. */
  lemma {:induction false} NonZeroProgramsMembers(pairs: seq<(nat, nat)>, pid: nat)
    ensures pid in NonZeroPrograms(pairs) <==> exists k :: 0 <= k < |pairs| && pairs[k].0 != 0 && pairs[k].1 == pid
    decreases |pairs|
  {
    if pairs != [] {
      NonZeroProgramsMembers(pairs[1..], pid);
      if exists k :: 0 <= k < |pairs[1..]| && pairs[1..][k].0 != 0 && pairs[1..][k].1 == pid {
        var k :| 0 <= k < |pairs[1..]| && pairs[1..][k].0 != 0 && pairs[1..][k].1 == pid;
        assert pairs[k + 1] == pairs[1..][k];
      }
      if exists k :: 0 <= k < |pairs| && pairs[k].0 != 0 && pairs[k].1 == pid {
        var k :| 0 <= k < |pairs| && pairs[k].0 != 0 && pairs[k].1 == pid;
        if k > 0 {
          assert pairs[1..][k - 1] == pairs[k];
        }
      }
    }
  }

  /** The filter keeps the order: it distributes over appending. */
  lemma {:induction false} NonZeroProgramsAppend(a: seq<(nat, nat)>, b: seq<(nat, nat)>)
    ensures NonZeroPrograms(a + b) == NonZeroPrograms(a) + NonZeroPrograms(b)
    decreases |a|
  {
    if a == [] {
      assert a + b == b;
    } else {
      assert (a + b)[1..] == a[1..] + b;
      NonZeroProgramsAppend(a[1..], b);
    }
  }

  // ---------------------------------------------------------------------
  // pmt.py and eit.py: entries of declared length up to `section_length - 4`

  /**
   * Entries from `index` while `index < last`: the entry's 12-bit length sits
   * `off` bytes into it and counts the bytes after a fixed part of `base`.
   */
  function EntriesFrom(t: seq<uint8>, index: nat, last: int, off: nat, base: nat): Yielded<seq<uint8>>
    requires base >= 1
    decreases last - index
  {
    if index >= last then Yielded([], None)
    else
      match Read12(t, index + off)
      case Err(e) => Yielded([], Some(e))
      case Ok(len) =>
        var size := base + len;
        Cons(Slice(t, index, index + size), EntriesFrom(t, index + size, last, off, base))
  }

  /** The cursor loop shared by `pmt.sections` and `eit.sections`. */
  method EntriesLoop(t: seq<uint8>, start: nat, last: int, off: nat, base: nat) returns (y: Yielded<seq<uint8>>)
    requires base >= 1
    ensures y == EntriesFrom(t, start, last, off, base)
  {
    var items: seq<seq<uint8>> := [];
    var index: nat := start;
    while index < last
      invariant EntriesFrom(t, start, last, off, base) == Prefix(items, EntriesFrom(t, index, last, off, base))
      decreases last - index
    {
      var len := Read12(t, index + off);
      if len.Err? {
        return Yielded(items, Some(len.error));
      }
      var size := base + len.value;
      var e := Slice(t, index, index + size);
      EntriesStep(t, index, last, off, base, len.value, size);
      PrefixCons(items, e, EntriesFrom(t, index + size, last, off, base));
      items := items + [e];
      index := index + size;
    }
    return Yielded(items, None);
  }

  lemma EntriesStep(t: seq<uint8>, index: nat, last: int, off: nat, base: nat, len: nat, size: nat)
    requires base >= 1 && index < last && Read12(t, index + off) == Ok(len) && size == base + len
    ensures EntriesFrom(t, index, last, off, base) == Cons(Slice(t, index, index + size), EntriesFrom(t, index + size, last, off, base))
  {
  }

  /** An entry whose length field counts exactly the bytes after its fixed part. */
  predicate WellFormedEntry(e: seq<uint8>, off: nat, base: nat)
  {
    off + 1 < |e| && off + 1 < base && Read12(e, off).Ok? && |e| == base + Read12(e, off).value
  }

  /**
   * Round trip: well-formed entries placed back to back, with the loop bound
   * at their end, are walked back into exactly themselves, whatever precedes
   * or follows them.
   */
  lemma EntriesOfConcat(pre: seq<uint8>, es: seq<seq<uint8>>, post: seq<uint8>, last: int, off: nat, base: nat)
    requires base >= 1
    requires forall k :: 0 <= k < |es| ==> WellFormedEntry(es[k], off, base)
    requires last == |pre| + |Concat(es)|
    ensures EntriesFrom(pre + Concat(es) + post, |pre|, last, off, base) == Yielded(es, None)
  {
    var t := pre + Concat(es) + post;
    assert t[|pre|..|pre| + |Concat(es)|] == Concat(es);
    EntriesOfPlaced(t, |pre|, es, last, off, base);
  }

  /** The same, for entries found at `index` in a fixed byte string. */
  lemma {:induction false} EntriesOfPlaced(t: seq<uint8>, index: nat, es: seq<seq<uint8>>, last: int, off: nat, base: nat)
    requires base >= 1
    requires forall k :: 0 <= k < |es| ==> WellFormedEntry(es[k], off, base)
    requires last == index + |Concat(es)| <= |t|
    requires t[index..last] == Concat(es)
    ensures EntriesFrom(t, index, last, off, base) == Yielded(es, None)
    decreases |es|
  {
    if es != [] {
      var e, tail := es[0], es[1..];
      PlacedTail(t, index, es, last, off, base);
      EntriesOfPlaced(t, index + |e|, tail, last, off, base);
      PlacedStep(t, index, e, tail, last, off, base);
      assert [e] + tail == es;
    }
  }

  /** The entries after the first one are placed right after it. */
  lemma PlacedTail(t: seq<uint8>, index: nat, es: seq<seq<uint8>>, last: int, off: nat, base: nat)
    requires es != []
    requires forall k :: 0 <= k < |es| ==> WellFormedEntry(es[k], off, base)
    requires last == index + |Concat(es)| <= |t|
    requires t[index..last] == Concat(es)
    ensures WellFormedEntry(es[0], off, base) && index < last && index + |es[0]| <= |t| && t[index..index + |es[0]|] == es[0]
    ensures forall k :: 0 <= k < |es[1..]| ==> WellFormedEntry(es[1..][k], off, base)
    ensures last == index + |es[0]| + |Concat(es[1..])| && t[index + |es[0]|..last] == Concat(es[1..])
  {
    var e, tail := es[0], es[1..];
    assert es == [e] + tail;
    assert WellFormedEntry(e, off, base);
    forall k | 0 <= k < |tail| ensures WellFormedEntry(tail[k], off, base) {
      assert tail[k] == es[k + 1];
    }
    ConcatCons(e, tail);
    PlacedSplit(t, index, e, Concat(tail), last);
  }

  lemma PlacedStep(t: seq<uint8>, index: nat, e: seq<uint8>, tail: seq<seq<uint8>>, last: int, off: nat, base: nat)
    requires base >= 1 && WellFormedEntry(e, off, base) && index < last && index + |e| <= |t| && t[index..index + |e|] == e
    requires EntriesFrom(t, index + |e|, last, off, base) == Yielded(tail, None)
    ensures EntriesFrom(t, index, last, off, base) == Yielded([e] + tail, None)
  {
    EntryPlaced(t, index, e, off, base);
    EntriesStep(t, index, last, off, base, Read12(e, off).value, |e|);
  }

  /** A placed join splits into its first piece and the rest, each placed in turn. */
  lemma PlacedSplit<T>(t: seq<T>, index: nat, d: seq<T>, c: seq<T>, last: nat)
    requires last == index + |d| + |c| <= |t| && t[index..last] == d + c
    ensures t[index..index + |d|] == d && t[index + |d|..last] == c
  {
    assert t[index..index + |d|] == t[index..last][..|d|];
    assert t[index + |d|..last] == t[index..last][|d|..];
  }

  /** A placed entry is read back by its length field and by slice. */
  lemma EntryPlaced(t: seq<uint8>, index: nat, e: seq<uint8>, off: nat, base: nat)
    requires WellFormedEntry(e, off, base) && index + |e| <= |t| && t[index..index + |e|] == e
    ensures Read12(t, index + off) == Read12(e, off)
    ensures Slice(t, index, index + |e|) == e
  {
    assert t[index + off] == e[off] && t[index + off + 1] == e[off + 1];
  }

  /** Where the entry walk from `index` stops: the first cursor at or past `last`, or the one whose length read fails. */
  function EntriesEnd(t: seq<uint8>, index: nat, last: int, off: nat, base: nat): (r: nat)
    requires base >= 1
    ensures r >= index
    decreases last - index
  {
    if index >= last then index
    else
      match Read12(t, index + off)
      case Err(_) => index
      case Ok(len) => EntriesEnd(t, index + base + len, last, off, base)
  }

  /** Entries are contiguous: when the walk ends cleanly they cover `t[index:]` up to where it stopped, at or past `last`. */
  lemma {:induction false} EntriesContiguous(t: seq<uint8>, index: nat, last: int, off: nat, base: nat)
    requires base >= 1
    ensures var y := EntriesFrom(t, index, last, off, base);
      var stop := EntriesEnd(t, index, last, off, base);
      y.raised.None? ==> stop >= last && Concat(y.items) == Slice(t, index, stop)
    decreases last - index
  {
    if index >= last {
      assert Concat(EntriesFrom(t, index, last, off, base).items) == Slice(t, index, index);
    } else if Read12(t, index + off).Ok? {
      var len := Read12(t, index + off).value;
      var size := base + len;
      EntriesContiguous(t, index + size, last, off, base);
      EntriesContiguousStep(t, index, last, off, base, len, size, EntriesFrom(t, index + size, last, off, base));
    }
  }

  lemma EntriesContiguousStep(t: seq<uint8>, index: nat, last: int, off: nat, base: nat, len: nat, size: nat, rest: Yielded<seq<uint8>>)
    requires base >= 1 && index < last && Read12(t, index + off) == Ok(len) && size == base + len
    requires rest == EntriesFrom(t, index + size, last, off, base)
    requires rest.raised.None? ==> (EntriesEnd(t, index + size, last, off, base) >= last &&
      Concat(rest.items) == Slice(t, index + size, EntriesEnd(t, index + size, last, off, base)))
    ensures var y := EntriesFrom(t, index, last, off, base);
      var stop := EntriesEnd(t, index, last, off, base);
      y.raised.None? ==> stop >= last && Concat(y.items) == Slice(t, index, stop)
  {
    var stop := EntriesEnd(t, index + size, last, off, base);
    assert EntriesEnd(t, index, last, off, base) == stop;
    EntriesStep(t, index, last, off, base, len, size);
    if rest.raised.None? {
      SliceAppend(t, index, index + size, stop);
      ConcatCons(Slice(t, index, index + size), rest.items);
    }
  }

  /** `pmt.sections(table)`: from `12 + program_info_length`, entries of `5 + ES_info_length` bytes, up to `section_length - 4`. */
  method PmtSections(t: seq<uint8>) returns (y: Yielded<seq<uint8>>)
    ensures y == PmtSectionsSpec(t)
  {
    var len := Read12(t, 1);
    if len.Err? {
      return Yielded([], Some(len.error));
    }
    var info := Read12(t, 10);
    if info.Err? {
      return Yielded([], Some(info.error));
    }
    y := EntriesLoop(t, 12 + info.value, len.value as int - 4, 3, 5);
  }

  function PmtSectionsSpec(t: seq<uint8>): Yielded<seq<uint8>>
  {
    match Read12(t, 1)
    case Err(e) => Yielded([], Some(e))
    case Ok(n) =>
      match Read12(t, 10)
      case Err(e) => Yielded([], Some(e))
      case Ok(info) => EntriesFrom(t, 12 + info, n as int - 4, 3, 5)
  }

  /** `eit.sections(table)`: from 14, events of `12 + descriptors_loop_length` bytes, up to `section_length - 4`. */
  method EitSections(t: seq<uint8>) returns (y: Yielded<seq<uint8>>)
    ensures y == EitSectionsSpec(t)
  {
    var len := Read12(t, 1);
    if len.Err? {
      return Yielded([], Some(len.error));
    }
    y := EntriesLoop(t, 14, len.value as int - 4, 10, 12);
  }

  function EitSectionsSpec(t: seq<uint8>): Yielded<seq<uint8>>
  {
    match Read12(t, 1)
    case Err(e) => Yielded([], Some(e))
    case Ok(n) => EntriesFrom(t, 14, n as int - 4, 10, 12)
  }

  /** `stream_type(section)`: byte 0. */
  function StreamType(s: seq<uint8>): Result<uint8, PacketError>
  {
    if |s| < 1 then Err(IndexError(0)) else Ok(s[0])
  }

  /** `elementary_pid(section)`: `((s[1] & 0x1F) << 8) | s[2]`. */
  function ElementaryPid(s: seq<uint8>): (r: Result<nat, PacketError>)
    ensures r.Err? <==> |s| < 3
    ensures r.Ok? ==> r.value < 0x2000
  {
    if |s| < 3 then Err(IndexError(if |s| < 2 then 1 else 2))
    else
      var hi: nat := s[1] % 32;
      Ok(hi * 256 + s[2])
  }

  /** The elementary PID is the source expression and the 13-bit field at bit 11. */
  lemma ElementaryPidField(s: seq<uint8>)
    requires |s| >= 3
    ensures ElementaryPid(s).value == BitOr(ShiftLeft(BitAnd(s[1], 0x1F), 8), s[2])
    ensures InRange(s, 11, 13) && ElementaryPid(s).value == Uimsbf(s, 11, 13)
  {
    assert Pow2(5) == 32 && Pow2(8) == 256;
    MaskLow(s[1], 5);
    JoinedValue(BitAnd(s[1], 0x1F), s[2], 8);
    UimsbfConcat(s, 11, 5, 13, 16, 8);
    UimsbfOneByte(s, 11, 5, 1, 3, 5, 0);
    UimsbfOneByte(s, 16, 8, 2, 0, 8, 0);
    DivModUnique(s[1] % 32, 1, s[1] % 32, 0);
    DivModUnique(s[2], 256, 0, s[2]);
    DivModUnique(s[2], 1, s[2], 0);
  }

  /** `pmt.descriptors(section)`: the descriptor slicer over `s[5 : 5 + ES_info_length]`. */
  function PmtDescriptors(s: seq<uint8>): Yielded<seq<uint8>>
  {
    match Read12(s, 3)
    case Err(e) => Yielded([], Some(e))
    case Ok(len) => DescriptorsFrom(Slice(s, 5, 5 + len), 0)
  }

  /** `event_id(section)`: the big-endian 16 bits of bytes 0 and 1. */
  function EventId(s: seq<uint8>): (r: Result<nat, PacketError>)
    ensures r.Err? <==> |s| < 2
    ensures r.Ok? ==> r.value < 0x10000
  {
    if |s| < 2 then Err(IndexError(if |s| < 1 then 0 else 1))
    else
      var hi: nat := s[0];
      Ok(hi * 256 + s[1])
  }

  /** The event id is the schema's 16-bit read at bit 0 and the big-endian value of the two bytes. */
  lemma EventIdField(s: seq<uint8>)
    requires |s| >= 2
    ensures EventId(s).value == BitOr(ShiftLeft(s[0], 8), s[1])
    ensures InRange(s, 0, 16) && EventId(s).value == Uimsbf(s, 0, 16) == BigEndian(s[0..2])
  {
    assert Pow2(8) == 256;
    JoinedValue(s[0], s[1], 8);
    UimsbfBigEndian(s, 0, 16, 0, 2);
    assert s[0..2][..1] == [s[0]];
    assert BigEndian(s[0..2]) == BigEndian(s[0..2][..1]) * 256 + s[1];
    assert BigEndian([s[0]]) == BigEndian([s[0]][..0]) * 256 + s[0];
  }

  /** `duration(section)`: hours, minutes and seconds from the BCD bytes 7, 8 and 9. */
  function Duration(s: seq<uint8>): (r: Result<Hms, PacketError>)
    ensures r.Err? <==> |s| < 10
  {
    if |s| < 10 then Err(IndexError(if |s| < 8 then 7 else |s|))
    else Ok(Hms(Bcd2Int(s[7]), Bcd2Int(s[8]), Bcd2Int(s[9])))
  }

  /** The duration is the schema's BCD time of bytes 7..9 whenever that is not the undefined pattern. */
  lemma DurationIsBcdTime(s: seq<uint8>)
    requires |s| >= 10 && !AllOnes(s[7..10], 3)
    ensures BcdTime(s[7..10]) == Ok(Some(Duration(s).value))
  {
  }

  /** `eit.descriptors(section)`: the descriptor slicer over `s[12 : 12 + descriptors_loop_length]`. */
  function EitDescriptors(s: seq<uint8>): Yielded<seq<uint8>>
  {
    match Read12(s, 10)
    case Err(e) => Yielded([], Some(e))
    case Ok(len) => DescriptorsFrom(Slice(s, 12, 12 + len), 0)
  }

  /** A well-formed descriptor loop of the declared length is sliced back into its descriptors. */
  lemma EitDescriptorsRoundTrip(s: seq<uint8>, ds: seq<seq<uint8>>)
    requires |s| >= 12 && Read12(s, 10).Ok?
    requires forall k :: 0 <= k < |ds| ==> WellFormedDescriptor(ds[k])
    requires Slice(s, 12, 12 + Read12(s, 10).value) == Concat(ds)
    ensures EitDescriptors(s) == Yielded(ds, None)
  {
    DescriptorsOfConcat([], ds);
    assert [] + Concat(ds) == Concat(ds);
  }
}
