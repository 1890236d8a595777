/**
 * The handler registry of ariblib/table.py: `on(pids, table_ids)` registers a
 * function for every (PID, table id) pair, `run` hands each payload to the
 * function registered for its pair, and `tables` filters payload triples.
 *
 * The module-level `_tables` dictionary is the field of a `Registry` object.
 * The payload triples `packet.payloads` reads from a file are a parameter;
 * a handler is an opaque value, and calling it is recorded as a
 * (handler, payload) pair in the order the calls are made.
 */
module Table {
  import opened Bits

  /** A payload as `packet.payloads` yields it. */
  datatype Triple = Triple(pid: nat, tableId: nat, payload: seq<uint8>)

  /** `pid in pids and table_id in table_ids`. */
  predicate Selected(pids: seq<nat>, tableIds: seq<nat>, t: Triple)
  {
    t.pid in pids && t.tableId in tableIds
  }

  /** `tables(pids, table_ids, payloads)`: the payloads of the selected triples, in order. */
  function Tables(pids: seq<nat>, tableIds: seq<nat>, payloads: seq<Triple>): seq<seq<uint8>>
  {
    if payloads == [] then []
    else
      var rest := Tables(pids, tableIds, payloads[1..]);
      if Selected(pids, tableIds, payloads[0]) then [payloads[0].payload] + rest else rest
  }

  /** Filtering a concatenation filters each part. */
  lemma {:induction false} TablesAppend(pids: seq<nat>, tableIds: seq<nat>, a: seq<Triple>, b: seq<Triple>)
    ensures Tables(pids, tableIds, a + b) == Tables(pids, tableIds, a) + Tables(pids, tableIds, b)
    decreases |a|
  {
    if a == [] {
      assert a + b == b;
    } else {
      assert (a + b)[0] == a[0] && (a + b)[1..] == a[1..] + b;
      TablesAppend(pids, tableIds, a[1..], b);
    }
  }

  /** A payload is selected exactly when some triple with a selected pair carries it. */
  lemma {:induction false} TablesMember(pids: seq<nat>, tableIds: seq<nat>, payloads: seq<Triple>, x: seq<uint8>)
    ensures x in Tables(pids, tableIds, payloads) <==>
      exists i :: 0 <= i < |payloads| && Selected(pids, tableIds, payloads[i]) && payloads[i].payload == x
    decreases |payloads|
  {
    if payloads != [] {
      TablesMember(pids, tableIds, payloads[1..], x);
      if exists i :: 0 <= i < |payloads| && Selected(pids, tableIds, payloads[i]) && payloads[i].payload == x {
        var i :| 0 <= i < |payloads| && Selected(pids, tableIds, payloads[i]) && payloads[i].payload == x;
        if i > 0 {
          assert payloads[1..][i - 1] == payloads[i];
        }
      }
      if exists i :: 0 <= i < |payloads[1..]| && Selected(pids, tableIds, payloads[1..][i]) && payloads[1..][i].payload == x {
        var i :| 0 <= i < |payloads[1..]| && Selected(pids, tableIds, payloads[1..][i]) && payloads[1..][i].payload == x;
        assert payloads[1..][i] == payloads[i + 1];
      }
    }
  }

  /** The calls `run` makes: each payload whose pair is registered, with its handler. */
  function Dispatched<H>(tables: map<(nat, nat), H>, payloads: seq<Triple>): seq<(H, seq<uint8>)>
  {
    if payloads == [] then []
    else
      var t := payloads[0];
      var rest := Dispatched(tables, payloads[1..]);
      if (t.pid, t.tableId) in tables then [(tables[(t.pid, t.tableId)], t.payload)] + rest else rest
  }

  /**
   * When the registry holds exactly the pairs `pids` × `table_ids`, `run`
   * hands over the same payloads, in the same order, as `tables` selects.
   */
  lemma {:induction false} DispatchedIsTables<H>(tables: map<(nat, nat), H>, pids: seq<nat>, tableIds: seq<nat>, payloads: seq<Triple>)
    requires forall pid: nat, tid: nat :: (pid, tid) in tables <==> pid in pids && tid in tableIds
    ensures |Dispatched(tables, payloads)| == |Tables(pids, tableIds, payloads)|
    ensures forall k :: 0 <= k < |Dispatched(tables, payloads)| ==>
      Dispatched(tables, payloads)[k].1 == Tables(pids, tableIds, payloads)[k]
    decreases |payloads|
  {
    if payloads != [] {
      DispatchedIsTables(tables, pids, tableIds, payloads[1..]);
    }
  }

  /** A handler is only ever called through a registered pair, with that pair's payload. */
  lemma {:induction false} DispatchedRegistered<H>(tables: map<(nat, nat), H>, payloads: seq<Triple>, k: nat)
    requires k < |Dispatched(tables, payloads)|
    ensures exists i :: (0 <= i < |payloads| && (payloads[i].pid, payloads[i].tableId) in tables
      && Dispatched(tables, payloads)[k] == (tables[(payloads[i].pid, payloads[i].tableId)], payloads[i].payload))
    decreases |payloads|
  {
    var t := payloads[0];
    if (t.pid, t.tableId) in tables && k == 0 {
      assert (payloads[0].pid, payloads[0].tableId) in tables;
    } else {
      var k1 := if (t.pid, t.tableId) in tables then k - 1 else k;
      DispatchedRegistered(tables, payloads[1..], k1);
      var i :| 0 <= i < |payloads[1..]| && (payloads[1..][i].pid, payloads[1..][i].tableId) in tables
        && Dispatched(tables, payloads[1..])[k1] == (tables[(payloads[1..][i].pid, payloads[1..][i].tableId)], payloads[1..][i].payload);
      assert payloads[1..][i] == payloads[i + 1];
    }
  }

  lemma DispatchedAppend<H>(tables: map<(nat, nat), H>, a: seq<Triple>, t: Triple)
    ensures Dispatched(tables, a + [t]) == Dispatched(tables, a) + Dispatched(tables, [t])
    decreases |a|
  {
    if a != [] {
      assert (a + [t])[1..] == a[1..] + [t];
      DispatchedAppend(tables, a[1..], t);
    }
  }

  /** The module-level `_tables` dictionary. */
  class Registry<H> {
    var tables: map<(nat, nat), H>

    constructor()
      ensures tables == map[]
    {
      tables := map[];
    }

    /**
     * `on(pids, table_ids)(func)`: every pair of the product now maps to
     * `func`, a later registration replacing an earlier one; every other
     * pair keeps its handler.
     */
    method On(pids: seq<nat>, tableIds: seq<nat>, func: H)
      modifies this
      ensures forall pid, tid :: pid in pids && tid in tableIds ==> (pid, tid) in tables && tables[(pid, tid)] == func
      ensures forall key :: key in tables <==> key in old(tables) || (key.0 in pids && key.1 in tableIds)
      ensures forall key :: key in old(tables) && !(key.0 in pids && key.1 in tableIds) ==> tables[key] == old(tables)[key]
    {
      var i := 0;
      while i < |pids|
        invariant 0 <= i <= |pids|
        invariant forall pid, tid :: pid in pids[..i] && tid in tableIds ==> (pid, tid) in tables && tables[(pid, tid)] == func
        invariant forall key :: key in tables <==> key in old(tables) || (key.0 in pids[..i] && key.1 in tableIds)
        invariant forall key :: key in old(tables) && !(key.0 in pids[..i] && key.1 in tableIds) ==> tables[key] == old(tables)[key]
      {
        var j := 0;
        while j < |tableIds|
          invariant 0 <= j <= |tableIds|
          invariant forall pid, tid :: pid in pids[..i] && tid in tableIds ==> (pid, tid) in tables && tables[(pid, tid)] == func
          invariant forall tid :: tid in tableIds[..j] ==> (pids[i], tid) in tables && tables[(pids[i], tid)] == func
          invariant forall key :: key in tables <==> key in old(tables) || (key.0 in pids[..i] && key.1 in tableIds) || (key.0 == pids[i] && key.1 in tableIds[..j])
          invariant forall key :: key in old(tables) && !(key.0 in pids[..i] && key.1 in tableIds) && !(key.0 == pids[i] && key.1 in tableIds[..j]) ==> tables[key] == old(tables)[key]
        {
          assert tableIds[..j + 1] == tableIds[..j] + [tableIds[j]];
          tables := tables[(pids[i], tableIds[j]) := func];
          j := j + 1;
        }
        assert tableIds[..j] == tableIds;
        assert pids[..i + 1] == pids[..i] + [pids[i]];
        i := i + 1;
      }
      assert pids[..i] == pids;
    }

    /** `run`: each payload whose pair is registered is handed to its handler, in order. */
    method Run(payloads: seq<Triple>) returns (calls: seq<(H, seq<uint8>)>)
      ensures calls == Dispatched(tables, payloads)
    {
      calls := [];
      var i := 0;
      while i < |payloads|
        invariant 0 <= i <= |payloads|
        invariant calls == Dispatched(tables, payloads[..i])
      {
        var t := payloads[i];
        assert payloads[..i + 1] == payloads[..i] + [t];
        DispatchedAppend(tables, payloads[..i], t);
        if (t.pid, t.tableId) in tables {
          calls := calls + [(tables[(t.pid, t.tableId)], t.payload)];
        }
        i := i + 1;
      }
      assert payloads[..i] == payloads;
    }
  }
}
