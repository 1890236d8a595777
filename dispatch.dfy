/**
 * The dispatch tables `TransportStreamFile.sections` builds from the section
 * classes it is asked for (ariblib/packet.py): `table_map` sends a PID to the
 * table ids accepted on it, `target_ids` sends a (PID, table id) pair to the
 * class that parses it. A class is identified by its position in the
 * argument list; a later class declaring the same pair replaces an earlier one.
 */
module Dispatch {

  /** The `_pids` and `_table_ids` a section class declares, and how its length is read. */
  datatype SectionClass = SectionClass(pids: seq<nat>, tableIds: seq<nat>, kind: LengthKind)

  /** PSI sections carry `section_length` at bit 12; the PES class carries `PES_packet_length` at bit 32. */
  datatype LengthKind = PsiSection | PesPacket

  /** `table_map` (a defaultdict of sets) and `target_ids`. */
  datatype Tables = Tables(tableMap: map<nat, set<nat>>, targetIds: map<(nat, nat), nat>)

  function SetOf(s: seq<nat>): set<nat>
  {
    set x | x in s
  }

  /** `table_map[pid]`: the defaultdict gives the empty set for a PID it has not seen. */
  function TableIdsOf(t: Tables, pid: nat): set<nat>
  {
    if pid in t.tableMap then t.tableMap[pid] else {}
  }

  /** `set(chain.from_iterable(Section._pids for Section in Sections))`. */
  function TargetPids(cs: seq<SectionClass>): set<nat>
  {
    set i, p | 0 <= i < |cs| && p in cs[i].pids :: p
  }

  /** Class `i` declares the pair. */
  predicate Declares(cs: seq<SectionClass>, i: nat, key: (nat, nat))
    requires i < |cs|
  {
    key.0 in cs[i].pids && key.1 in cs[i].tableIds
  }

  /** The body of the innermost loop: `target_ids[(PID, table_id)] = Section; table_map[PID].add(table_id)`. */
  function AddPair(t: Tables, i: nat, pid: nat, tid: nat): Tables
  {
    Tables(t.tableMap[pid := TableIdsOf(t, pid) + {tid}], t.targetIds[(pid, tid) := i])
  }

  /** The innermost loop, over the table ids of one PID. */
  function AddTableIds(t: Tables, i: nat, pid: nat, tids: seq<nat>): Tables
  {
    if tids == [] then t else AddPair(AddTableIds(t, i, pid, tids[..|tids| - 1]), i, pid, tids[|tids| - 1])
  }

  /** The middle loop, over the PIDs of one class. */
  function AddPids(t: Tables, i: nat, pids: seq<nat>, tids: seq<nat>): Tables
  {
    if pids == [] then t else AddTableIds(AddPids(t, i, pids[..|pids| - 1], tids), i, pids[|pids| - 1], tids)
  }

  /** The outer loop, over the classes in argument order. */
  function Build(cs: seq<SectionClass>): Tables
  {
    if cs == [] then Tables(map[], map[])
    else AddPids(Build(cs[..|cs| - 1]), |cs| - 1, cs[|cs| - 1].pids, cs[|cs| - 1].tableIds)
  }

  /** Every table id listed for a PID has a class registered for the pair. */
  ghost predicate Consistent(t: Tables)
  {
    forall pid: nat, tid: nat :: tid in TableIdsOf(t, pid) <==> (pid, tid) in t.targetIds
  }

  /** The nested loops of `sections` that fill both tables. */
  method BuildTables(cs: seq<SectionClass>) returns (t: Tables)
    ensures t == Build(cs)
  {
    t := Tables(map[], map[]);
    var i := 0;
    while i < |cs|
      invariant 0 <= i <= |cs| && t == Build(cs[..i])
    {
      var pids, tids := cs[i].pids, cs[i].tableIds;
      var before := t;
      var j := 0;
      while j < |pids|
        invariant 0 <= j <= |pids| && t == AddPids(before, i, pids[..j], tids)
      {
        var start := t;
        var k := 0;
        while k < |tids|
          invariant 0 <= k <= |tids| && t == AddTableIds(start, i, pids[j], tids[..k])
        {
          t := AddPair(t, i, pids[j], tids[k]);
          TableIdsStep(start, i, pids[j], tids, k);
          k := k + 1;
        }
        PidsStep(before, i, pids, tids, j);
        j := j + 1;
      }
      BuildStep(cs, i);
      i := i + 1;
    }
    assert cs[..i] == cs;
  }

  lemma TableIdsStep(t: Tables, i: nat, pid: nat, tids: seq<nat>, k: nat)
    requires k < |tids|
    ensures AddTableIds(t, i, pid, tids[..k + 1]) == AddPair(AddTableIds(t, i, pid, tids[..k]), i, pid, tids[k])
  {
    assert tids[..k + 1][..k] == tids[..k];
  }

  lemma PidsStep(t: Tables, i: nat, pids: seq<nat>, tids: seq<nat>, j: nat)
    requires j < |pids|
    ensures AddPids(t, i, pids[..j + 1], tids) == AddTableIds(AddPids(t, i, pids[..j], tids), i, pids[j], tids[..|tids|])
  {
    assert pids[..j + 1][..j] == pids[..j];
    assert tids[..|tids|] == tids;
  }

  lemma BuildStep(cs: seq<SectionClass>, i: nat)
    requires i < |cs|
    ensures Build(cs[..i + 1]) == AddPids(Build(cs[..i]), i, cs[i].pids, cs[i].tableIds)
    ensures cs[i].pids[..|cs[i].pids|] == cs[i].pids
  {
    assert cs[..i + 1][..i] == cs[..i];
    assert cs[i].pids[..|cs[i].pids|] == cs[i].pids;
  }

  /** The innermost loop registers class `i` for the pairs of `pid` and leaves the rest. */
  lemma {:induction false} AddTableIdsSpec(t: Tables, i: nat, pid: nat, tids: seq<nat>)
    ensures var r := AddTableIds(t, i, pid, tids);
      (forall key :: key in r.targetIds <==> key in t.targetIds || (key.0 == pid && key.1 in tids)) &&
      (forall key :: key in r.targetIds ==>
         r.targetIds[key] == if key.0 == pid && key.1 in tids then i else t.targetIds[key]) &&
      (forall p :: TableIdsOf(r, p) == TableIdsOf(t, p) + if p == pid then SetOf(tids) else {})
    decreases |tids|
  {
    if tids != [] {
      var init := tids[..|tids| - 1];
      AddTableIdsSpec(t, i, pid, init);
      assert forall x :: x in tids <==> x in init || x == tids[|tids| - 1];
    }
  }

  /** The middle loop registers class `i` for every declared pair of the class and leaves the rest. */
  lemma {:induction false} AddPidsSpec(t: Tables, i: nat, pids: seq<nat>, tids: seq<nat>)
    ensures var r := AddPids(t, i, pids, tids);
      (forall key :: key in r.targetIds <==> key in t.targetIds || (key.0 in pids && key.1 in tids)) &&
      (forall key :: key in r.targetIds ==>
         r.targetIds[key] == if key.0 in pids && key.1 in tids then i else t.targetIds[key]) &&
      (forall p :: TableIdsOf(r, p) == TableIdsOf(t, p) + if p in pids then SetOf(tids) else {})
    decreases |pids|
  {
    if pids != [] {
      var init := pids[..|pids| - 1];
      AddPidsSpec(t, i, init, tids);
      AddTableIdsSpec(AddPids(t, i, init, tids), i, pids[|pids| - 1], tids);
      assert forall x :: x in pids <==> x in init || x == pids[|pids| - 1];
    }
  }

  /** `target_ids` holds exactly the pairs some class declares. */
  lemma {:induction false} BuildDomain(cs: seq<SectionClass>, key: (nat, nat))
    ensures key in Build(cs).targetIds <==> exists i :: 0 <= i < |cs| && Declares(cs, i, key)
    decreases |cs|
  {
    if cs != [] {
      var init, n := cs[..|cs| - 1], |cs| - 1;
      BuildDomain(init, key);
      AddPidsSpec(Build(init), n, cs[n].pids, cs[n].tableIds);
      if key in Build(init).targetIds {
        var i :| 0 <= i < |init| && Declares(init, i, key);
        assert Declares(cs, i, key);
      } else if key in Build(cs).targetIds {
        assert Declares(cs, n, key);
      }
      if exists i :: 0 <= i < |cs| && Declares(cs, i, key) {
        var i :| 0 <= i < |cs| && Declares(cs, i, key);
        if i < n {
          assert Declares(init, i, key);
        }
      }
    }
  }

  /** A registered pair maps to the last class that declares it: later classes override earlier ones. */
  lemma {:induction false} BuildLast(cs: seq<SectionClass>, key: (nat, nat))
    requires key in Build(cs).targetIds
    ensures Build(cs).targetIds[key] < |cs| && Declares(cs, Build(cs).targetIds[key], key)
    ensures forall j :: Build(cs).targetIds[key] < j < |cs| ==> !Declares(cs, j, key)
    decreases |cs|
  {
    var init, n := cs[..|cs| - 1], |cs| - 1;
    AddPidsSpec(Build(init), n, cs[n].pids, cs[n].tableIds);
    if !Declares(cs, n, key) {
      assert key in Build(init).targetIds;
      BuildLast(init, key);
      var v := Build(init).targetIds[key];
      assert Build(cs).targetIds[key] == v;
      forall j | v < j < |cs|
        ensures !Declares(cs, j, key)
      {
        if j < n {
          assert cs[j] == init[j];
          assert !Declares(init, j, key);
        }
      }
    }
  }

  /** `table_map[pid]` lists exactly the table ids paired with `pid` in `target_ids`. */
  lemma {:induction false} BuildTableMap(cs: seq<SectionClass>, pid: nat, tid: nat)
    ensures tid in TableIdsOf(Build(cs), pid) <==> (pid, tid) in Build(cs).targetIds
    decreases |cs|
  {
    if cs != [] {
      var init, n := cs[..|cs| - 1], |cs| - 1;
      BuildTableMap(init, pid, tid);
      AddPidsSpec(Build(init), n, cs[n].pids, cs[n].tableIds);
    }
  }

  /** The built tables are consistent: a table id accepted on a PID always finds its class. */
  lemma BuildConsistent(cs: seq<SectionClass>)
    ensures Consistent(Build(cs))
    ensures forall pid: nat, tid: nat :: tid in TableIdsOf(Build(cs), pid) ==> pid in TargetPids(cs)
  {
    forall pid: nat, tid: nat
      ensures tid in TableIdsOf(Build(cs), pid) <==> (pid, tid) in Build(cs).targetIds
      ensures tid in TableIdsOf(Build(cs), pid) ==> pid in TargetPids(cs)
    {
      BuildTableMap(cs, pid, tid);
      BuildDomain(cs, (pid, tid));
      if tid in TableIdsOf(Build(cs), pid) {
        var i :| 0 <= i < |cs| && Declares(cs, i, (pid, tid));
      }
    }
  }
}
