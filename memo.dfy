/**
 * The caches of ariblib/mnemonics.py on one layout instance. `@cache` stores
 * what a field's `__get__` returned as an instance attribute of the same
 * name, so later reads find it without calling the field again; `meta_cache`
 * stores each `real_length` in the instance dictionary under
 * `'_<name>_len'`, keyed by the field's name alone.
 */
module Memo {
  import opened Wrappers
  import opened Schema

  /** `'_{}_{}'.format(name, 'len')`. */
  function LenKey(name: string): string
  {
    "_" + name + "_len"
  }

  /** Different names have different length keys. */
  lemma LenKeyInjective(a: string, b: string)
    requires LenKey(a) == LenKey(b)
    ensures a == b
  {
    assert |a| == |b|;
    forall j | 0 <= j < |a|
      ensures a[j] == b[j]
    {
      assert LenKey(a)[j + 1] == a[j];
      assert LenKey(b)[j + 1] == b[j];
    }
  }

  /** No two fields of the run share a name. */
  predicate Distinct(fs: seq<Field>)
  {
    forall i, j :: 0 <= i < j < |fs| ==> fs[i].name != fs[j].name
  }

  /** In a run of distinct names, two fields of the run with the same length key are the same field. */
  lemma SameKeySameField(fs: seq<Field>, f: Field, g: Field)
    requires Distinct(fs) && f in fs && g in fs && LenKey(g.name) == LenKey(f.name)
    ensures g == f
  {
    LenKeyInjective(g.name, f.name);
    var i :| 0 <= i < |fs| && fs[i] == f;
    var j :| 0 <= j < |fs| && fs[j] == g;
    assert i == j;
  }

  /** Whether reading `name` goes through a field whose `__get__` returns, which `@cache` then stores. */
  predicate Stored(env: Env, n: Node, name: string, fuel: nat)
  {
    fuel > 0 && Attribute(n.cls, name).Some? &&
    FieldValue(env, n, Attribute(n.cls, name).value.0, Attribute(n.cls, name).value.1, fuel - 1).Ok?
  }

  /** A layout instance together with its instance dictionary. */
  class Instance {
    const env: Env
    const node: Node
    const fuel: nat
    /** The attributes `@cache` set. */
    var values: map<string, Value>
    /** The lengths `meta_cache('len')` stored, by key. */
    var lengths: map<string, int>
    /** The field each cached length was measured for. */
    ghost var measured: map<string, Field>

    /**
     * Every cached value is what the lookup gives, and every cached length
     * is the real length of the field it was measured for, stored under
     * that field's key.
     */
    ghost predicate Valid()
      reads this
    {
      (forall name :: name in values ==> Get(env, node, name, fuel) == Ok(values[name])) &&
      (forall key :: key in lengths ==>
        key in measured && LenKey(measured[key].name) == key &&
        RealLength(env, node, measured[key], fuel) == Ok(lengths[key]))
    }

    constructor(env: Env, node: Node, fuel: nat)
      ensures Valid()
      ensures this.env == env && this.node == node && this.fuel == fuel
      ensures values == map[] && lengths == map[] && measured == map[]
    {
      this.env := env;
      this.node := node;
      this.fuel := fuel;
      values := map[];
      lengths := map[];
      measured := map[];
    }

    /**
     * `getattr(instance, name)`: a cached attribute is returned as stored;
     * otherwise the lookup runs, and its value is stored when a field's
     * `__get__` produced it. Either way the answer is the lookup's.
     */
    method Read(name: string) returns (r: Result<Value, Failure>)
      requires Valid()
      modifies this
      ensures Valid()
      ensures r == Get(env, node, name, fuel)
      ensures name in old(values) ==> r == Ok(old(values)[name])
      ensures values == if name !in old(values) && Stored(env, node, name, fuel) then old(values)[name := r.value] else old(values)
      ensures lengths == old(lengths) && measured == old(measured)
    {
      if name in values {
        r := Ok(values[name]);
      } else {
        r := Get(env, node, name, fuel);
        if Stored(env, node, name, fuel) {
          var at := Attribute(node.cls, name).value;
          assert r == FieldValue(env, node, at.0, at.1, fuel - 1);
          values := values[name := r.value];
        }
      }
    }

    /** Two reads in a row give the same answer, and the second one changes nothing. */
    method ReadTwice(name: string) returns (first: Result<Value, Failure>, second: Result<Value, Failure>)
      requires Valid()
      modifies this
      ensures Valid()
      ensures first == second == Get(env, node, name, fuel)
      ensures first.Ok? && Stored(env, node, name, fuel) ==> name in values && values[name] == first.value
    {
      first := Read(name);
      ghost var between := values;
      second := Read(name);
      assert values == between;
    }

    /**
     * `f.real_length(instance)`: the length cached under the field's key if
     * there is one — measured for a field of that name, not necessarily `f` —
     * otherwise the real length of `f`, stored when it is a number.
     */
    method Length(f: Field) returns (r: Result<int, Failure>)
      requires Valid()
      modifies this
      ensures Valid()
      ensures LenKey(f.name) in old(lengths) ==>
        r == Ok(old(lengths)[LenKey(f.name)]) && r == RealLength(env, node, old(measured)[LenKey(f.name)], fuel) &&
        lengths == old(lengths) && measured == old(measured)
      ensures LenKey(f.name) !in old(lengths) ==> r == RealLength(env, node, f, fuel)
      ensures LenKey(f.name) in old(lengths) && old(measured)[LenKey(f.name)] == f ==> r == RealLength(env, node, f, fuel)
      ensures LenKey(f.name) !in old(lengths) && r.Ok? ==>
        lengths == old(lengths)[LenKey(f.name) := r.value] && measured == old(measured)[LenKey(f.name) := f]
      ensures LenKey(f.name) !in old(lengths) && r.Err? ==> lengths == old(lengths) && measured == old(measured)
      ensures values == old(values)
    {
      var key := LenKey(f.name);
      if key in lengths {
        r := Ok(lengths[key]);
      } else {
        r := RealLength(env, node, f, fuel);
        if r.Ok? {
          lengths := lengths[key := r.value];
          measured := measured[key := f];
        }
      }
    }

    /** The cached lengths were all measured for fields of this instance's own class body. */
    ghost predicate OwnLengths()
      reads this
    {
      forall key :: key in measured ==> measured[key] in node.cls.fields
    }

    /** The length of one of the class body's own fields: with distinct names, the cache is exact. */
    method MeasureOwn(f: Field) returns (r: Result<int, Failure>)
      requires Valid() && OwnLengths() && Distinct(node.cls.fields) && f in node.cls.fields
      modifies this
      ensures Valid() && OwnLengths() && values == old(values)
      ensures r == RealLength(env, node, f, fuel)
    {
      if LenKey(f.name) in lengths {
        SameKeySameField(node.cls.fields, f, measured[LenKey(f.name)]);
      }
      r := Length(f);
    }

    /**
     * `len(instance)`: the byte count of a section's packet, or the sum of
     * the real lengths of the class body's fields. When the field names are
     * distinct, the caches give exactly the uncached measure.
     */
    method Len() returns (r: Result<int, Failure>)
      requires Valid() && OwnLengths() && Distinct(node.cls.fields)
      modifies this
      ensures Valid() && OwnLengths()
      ensures r == LenOf(env, node, fuel + 1)
      ensures values == old(values)
    {
      if node.cls.section {
        return Ok(|node.packet|);
      }
      var fields := node.cls.fields;
      var total := 0;
      var i := 0;
      assert fields[..0] == [];
      while i < |fields|
        invariant 0 <= i <= |fields|
        invariant Valid() && OwnLengths() && values == old(values)
        invariant SumLengths(env, node, fields[..i], fuel + 1) == Ok(total)
      {
        var l := MeasureOwn(fields[i]);
        if l.Err? {
          SumLengthsPrefixErr(env, node, fields, i, fuel + 1, total, l.error);
          return Err(l.error);
        }
        SumLengthsPrefixOk(env, node, fields, i, fuel + 1, total, l.value);
        total := total + l.value;
        i := i + 1;
      }
      assert fields[..i] == fields;
      r := Ok(total);
    }
  }
}
