/**
 * How a layout class is declared (ariblib/syntax.py): the class body is
 * executed into a `SyntaxDict`, which records every field in declaration
 * order, gives each field its name and the list of fields before it (the
 * closure its start is computed from), and collects the case tables; the
 * metaclass then keeps exactly those lists on the new class.
 */
module SyntaxDecl {
  import opened Schema

  /** A value assigned in a class body: a field object, or anything else (a method, a constant). */
  datatype Member = Mnemonic(kind: Kind, length: Length) | Other

  /** The fields of a class body, in the order they are assigned. */
  function FieldsOf(body: seq<(string, Member)>): (fs: seq<Field>)
    ensures |fs| <= |body|
  {
    if body == [] then []
    else
      var last := body[|body| - 1];
      FieldsOf(body[..|body| - 1]) + (if last.1.Mnemonic? then [Field(last.0, last.1.kind, last.1.length)] else [])
  }

  /** The case tables collected by appending one more field. */
  lemma {:induction false} ConditionsSnoc(fs: seq<Field>, f: Field)
    ensures Conditions(fs + [f]) == Conditions(fs) + (if f.kind.Case? then [(f.name, f.kind.cond)] else [])
    decreases |fs|
  {
    if fs == [] {
      assert [f][1..] == [];
    } else {
      assert (fs + [f])[0] == fs[0];
      assert (fs + [f])[1..] == fs[1..] + [f];
      ConditionsSnoc(fs[1..], f);
    }
  }

  /**
   * Each field's start closure sees exactly the fields declared before it;
   * the case tables are those of the fields; and a key bound to a field
   * names the last field declared under that key, which is the one class
   * attribute lookup finds.
   */
  ghost predicate Consistent(mnemonics: seq<Field>, conditions: seq<(string, Cond)>, starts: seq<seq<Field>>, entries: map<string, Member>)
  {
    |starts| == |mnemonics| &&
    (forall k :: 0 <= k < |starts| ==> starts[k] == mnemonics[..k]) &&
    conditions == Conditions(mnemonics) &&
    (forall key :: key in entries && entries[key].Mnemonic? ==>
      LastNamed(mnemonics, key).Some? &&
      mnemonics[LastNamed(mnemonics, key).value] == Field(key, entries[key].kind, entries[key].length))
  }

  /** One assignment of the class body keeps the namespace consistent. */
  lemma SetItemKeepsConsistent(mnemonics: seq<Field>, conditions: seq<(string, Cond)>, starts: seq<seq<Field>>,
                               entries: map<string, Member>, key: string, value: Member)
    requires Consistent(mnemonics, conditions, starts, entries)
    ensures value.Other? ==> Consistent(mnemonics, conditions, starts, entries[key := value])
    ensures value.Mnemonic? ==>
      var f := Field(key, value.kind, value.length);
      Consistent(mnemonics + [f], conditions + (if f.kind.Case? then [(key, f.kind.cond)] else []),
                 starts + [mnemonics], entries[key := value])
  {
    if value.Mnemonic? {
      var f := Field(key, value.kind, value.length);
      var ms := mnemonics + [f];
      ConditionsSnoc(mnemonics, f);
      assert ms[..|ms| - 1] == mnemonics;
      forall k | 0 <= k < |mnemonics|
        ensures ms[..k] == mnemonics[..k]
      {
      }
      forall other | other in entries && entries[other].Mnemonic? && other != key
        ensures LastNamed(ms, other) == LastNamed(mnemonics, other)
      {
      }
    }
  }

  /** The namespace a class body is executed in (`SyntaxDict`). */
  class SyntaxDict {
    /** `mnemonics`: every field, in declaration order. */
    var mnemonics: seq<Field>
    /** `conditions`: the case tables, in declaration order. */
    var conditions: seq<(string, Cond)>
    /** The list each field's `start` closure sums over, one per field. */
    var starts: seq<seq<Field>>
    /** The dictionary itself: the last value assigned to each key. */
    var entries: map<string, Member>

    /** The namespace is `Consistent`. */
    ghost predicate Valid()
      reads this
    {
      Consistent(mnemonics, conditions, starts, entries)
    }

    constructor()
      ensures Valid()
      ensures mnemonics == [] && conditions == [] && starts == [] && entries == map[]
    {
      mnemonics := [];
      conditions := [];
      starts := [];
      entries := map[];
    }

    /**
     * `__setitem__(key, value)`: a field gets its name and a start closure
     * over the fields so far and is appended; a case table is also appended
     * to the conditions; every value is stored under its key.
     */
    method SetItem(key: string, value: Member)
      requires Valid()
      modifies this
      ensures Valid()
      ensures value.Mnemonic? ==> mnemonics == old(mnemonics) + [Field(key, value.kind, value.length)]
      ensures value.Mnemonic? ==> starts == old(starts) + [old(mnemonics)]
      ensures value.Other? ==> mnemonics == old(mnemonics) && starts == old(starts)
      ensures conditions == old(conditions) +
        (if value.Mnemonic? && value.kind.Case? then [(key, value.kind.cond)] else [])
      ensures entries == old(entries)[key := value]
    {
      SetItemKeepsConsistent(mnemonics, conditions, starts, entries, key, value);
      if value.Mnemonic? {
        starts := starts + [mnemonics];
        mnemonics := mnemonics + [Field(key, value.kind, value.length)];
      }
      if value.Mnemonic? && value.kind.Case? {
        conditions := conditions + [(key, value.kind.cond)];
      }
      entries := entries[key := value];
    }

    /** Executing a class body: every assignment in order. */
    method DeclareAll(body: seq<(string, Member)>)
      requires Valid()
      modifies this
      ensures Valid()
      ensures mnemonics == old(mnemonics) + FieldsOf(body)
    {
      var i := 0;
      while i < |body|
        invariant 0 <= i <= |body|
        invariant Valid()
        invariant mnemonics == old(mnemonics) + FieldsOf(body[..i])
      {
        assert body[..i + 1][..i] == body[..i];
        SetItem(body[i].0, body[i].1);
        i := i + 1;
      }
      assert body[..i] == body;
    }
  }

  /**
   * `SyntaxType.__new__`: the new class keeps its body's own fields; its
   * base's fields stay reachable as class attributes but are not among its
   * fields, and a subclass of `Section` is a section.
   */
  function ClassOf(name: string, body: seq<Field>, base: Class): (c: Class)
    ensures c.fields == body && c.inherited == base.fields && c.section == base.section
  {
    Class(name, body, base.fields, base.section)
  }

  /** `Syntax`, the root of the layouts. */
  function SyntaxRoot(): Class
  {
    Class("Syntax", [], [], false)
  }

  /** `Section`, the root of the sections. */
  function SectionRoot(): Class
  {
    Class("Section", [], [], true)
  }

  /** Declaring a class body from an empty namespace yields exactly the body's fields. */
  method Declare(name: string, body: seq<(string, Member)>, base: Class) returns (c: Class)
    ensures c.fields == FieldsOf(body) && c.inherited == base.fields
  {
    var d := new SyntaxDict();
    d.DeclareAll(body);
    assert d.mnemonics == FieldsOf(body);
    c := ClassOf(name, d.mnemonics, base);
  }
}
