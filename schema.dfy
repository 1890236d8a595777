/**
 * The declarative layout engine of ariblib/mnemonics.py and ariblib/syntax.py.
 *
 * A layout is a class whose body assigns field objects (`uimsbf(12)`,
 * `aribstr(descriptor_length)`, `@loop(...) class ...`); the class keeps them,
 * in declaration order, in `_mnemonics`. An instance is a packet, a bit
 * position and an optional parent. Every field is read lazily: its start is
 * the instance position plus the real lengths of the fields declared before
 * it, and a length may be a literal, another field's value times 8, the value
 * of a lambda times 8, or a sum over a nested class. Attribute lookup falls
 * back to `Syntax.__getattr__`, which searches the conditional sub-layouts and
 * then the parent.
 *
 * Python's attribute protocol is modelled as a family of mutually recursive
 * functions. Each step spends one unit of `fuel`; running out stands for the
 * unbounded recursion (or the endless loop of a zero-length element) the
 * library would run into. The lambdas of the layouts are the small expression
 * language `Expr`/`Cond`, which covers every lambda the layouts write.
 */
module Schema {
  import opened Wrappers
  import opened Bits
  import Bcd

  /** The bodies of the layouts' `lambda self: ...` lengths and counts. */
  datatype Expr =
    | Lit(value: int)
    | Attr(name: string)
    | Plus(left: Expr, right: Expr)
    | Minus(left: Expr, right: Expr)
    | Times(left: Expr, right: Expr)
    | IfThen(test: Cond, yes: Expr, no: Expr)

  /** The conditions of `@case(...)`: a field (its truth value) or a lambda. */
  datatype Cond =
    | Truthy(e: Expr)
    | Equal(e: Expr, k: int)
    | NotEqual(e: Expr, k: int)
    | Among(e: Expr, ks: seq<int>)
    | NotAmong(e: Expr, ks: seq<int>)
    | Both(a: Cond, b: Cond)

  /**
   * The `length` argument of a field: an int, a field (or its name) whose value
   * counts bytes, a lambda whose value counts bytes, or `None`.
   */
  datatype Length = Literal(bits: nat) | ByField(name: string) | Computed(e: Expr) | Nested

  /**
   * The field classes: `uimsbf` (also `bslbf` and `rpchof`, which read the
   * same way), `bcd`, `bcdtime`, `mjd`, the byte spans `aribstr`, `char` and
   * `raw`, the loops `fixed_size_loop` and `fixed_count_loop`, `case_table`,
   * and the descriptor lists of ariblib/descriptors.py and
   * ariblib/diidescriptors.py.
   */
  datatype Kind =
    | Uimsbf
    | BcdNumber(decimalPoint: nat)
    | BcdTime
    | MjdTime
    | AribStr
    | Char
    | Raw
    | SizeLoop(body: Class)
    | CountLoop(body: Class, count: Expr)
    | Case(body: Class, cond: Cond)
    | DescriptorList(dii: bool)

  /** A field as its class body declares it; `name` is the key it was assigned to. */
  datatype Field = Field(name: string, kind: Kind, length: Length)

  /**
   * A layout class: `fields` is its own `_mnemonics`; `inherited` are the
   * fields its base class declares, still reachable as class attributes;
   * `section` marks subclasses of `Section`, whose lookups raise instead of
   * answering `None` and whose length is the byte count of their packet.
   */
  datatype Class = Class(name: string, fields: seq<Field>, inherited: seq<Field>, section: bool)

  /** An instance: `_packet`, `_pos` (in bits) and `_parent`. */
  datatype Node = Node(cls: Class, packet: seq<uint8>, pos: int, parent: Option<Node>)

  /**
   * What an attribute evaluates to. `Number` is a BCD value before the
   * division by `10 ** decimal_point`; `Grouped` is the descriptor dictionary
   * keyed by class.
   */
  datatype Value =
    | Int(i: int)
    | NoneValue
    | Number(digits: nat, decimalPoint: nat)
    | Time(t: Bcd.Hms)
    | Date(d: Bcd.MjdStamp)
    | Text(s: string)
    | Arib(bytes: seq<uint8>)
    | Bytes(b: seq<uint8>)
    | Child(node: Node)
    | Children(nodes: seq<Node>)
    | Grouped(groups: map<Class, seq<Node>>)

  /**
   * The exceptions a lookup can raise. `Unsupported` marks what the model
   * does not follow: arithmetic on non-integers and reads at a negative bit
   * position or with a negative length.
   */
  datatype Failure = AttributeError(name: string) | TypeError | ValueError | IndexError | OutOfFuel | Unsupported

  /** A descriptor registry: `tags` and the class `get` falls back to. */
  datatype Registry = Registry(tags: map<int, Class>, base: Class)

  /** The two registries descriptor lists consult. */
  datatype Env = Env(descriptors: Registry, dii: Registry)

  /** Index of the last field called `name`: the class dictionary keeps the last assignment. */
  function LastNamed(fields: seq<Field>, name: string): (r: Option<nat>)
    ensures r.Some? ==> r.value < |fields| && fields[r.value].name == name
    ensures r.Some? ==> forall j :: r.value < j < |fields| ==> fields[j].name != name
    ensures r.None? ==> forall j :: 0 <= j < |fields| ==> fields[j].name != name
    decreases |fields|
  {
    if fields == [] then None
    else if fields[|fields| - 1].name == name then Some(|fields| - 1)
    else LastNamed(fields[..|fields| - 1], name)
  }

  /**
   * The field a class attribute `name` resolves to: the class's own body
   * first, then its base class. The result is the list the field's start is
   * computed over, and its index there.
   */
  function Attribute(cls: Class, name: string): (r: Option<(seq<Field>, nat)>)
    ensures r.Some? ==> r.value.1 < |r.value.0| && r.value.0[r.value.1].name == name
    ensures r.Some? ==> r.value.0 == cls.fields || r.value.0 == cls.inherited
    ensures r.None? <==> LastNamed(cls.fields, name).None? && LastNamed(cls.inherited, name).None?
  {
    match LastNamed(cls.fields, name)
    case Some(k) => Some((cls.fields, k))
    case None =>
      match LastNamed(cls.inherited, name)
      case Some(k) => Some((cls.inherited, k))
      case None => None
  }

  /** `_conditions`: the case tables of a class body, as (name, condition), in order. */
  function Conditions(fields: seq<Field>): (r: seq<(string, Cond)>)
    ensures |r| <= |fields|
  {
    if fields == [] then []
    else
      var rest := Conditions(fields[1..]);
      if fields[0].kind.Case? then [(fields[0].name, fields[0].kind.cond)] + rest else rest
  }

  /** `any(mnemonic.name == name for mnemonic in fields)`. */
  predicate Declares(fields: seq<Field>, name: string)
  {
    exists j :: 0 <= j < |fields| && fields[j].name == name
  }

  /** Python's slice `p[a:b]`: negative bounds count from the end, and both are clamped. */
  function Clamp(i: int, len: nat): (r: nat)
    ensures r <= len
  {
    if i < 0 then (if i + len < 0 then 0 else i + len)
    else if i > len then len
    else i
  }

  function PySlice<T>(p: seq<T>, a: int, b: int): (r: seq<T>)
    ensures |r| <= |p|
  {
    var lo, hi := Clamp(a, |p|), Clamp(b, |p|);
    if lo < hi then p[lo..hi] else []
  }

  /** `''.join(map(chr, bytes))`: every byte becomes the character with that code. */
  function Latin1(b: seq<uint8>): (s: string)
    ensures |s| == |b| && forall j :: 0 <= j < |b| ==> s[j] as int == b[j]
  {
    seq(|b|, j requires 0 <= j < |b| => b[j] as char)
  }

  /** `uimsbf.uimsbf(packet, index, length)` with its exceptions. */
  function ReadUimsbf(p: seq<uint8>, index: int, length: int): (r: Result<Value, Failure>)
    ensures r.Ok? ==> r.value.Int? && 0 <= r.value.i
    ensures r.Ok? && length > 0 ==> r.value.i < Pow2(length)
  {
    if length == 0 then Ok(Int(0))
    else if index < 0 || length < 0 then Err(Unsupported)
    else if !InRange(p, index, length) then Err(IndexError)
    else Ok(Int(Bits.Uimsbf(p, index, length)))
  }

  /** `10 ** n`. */
  function Pow10(n: nat): (r: nat)
    ensures r >= 1
  {
    if n == 0 then 1 else 10 * Pow10(n - 1)
  }

  /** `v == k` for a Python value and an integer (a BCD value is a float). */
  predicate EqualsInt(v: Value, k: int)
  {
    (v.Int? && v.i == k) || (v.Number? && v.digits == k * Pow10(v.decimalPoint))
  }

  /** `v in ks` for a tuple of integers. */
  predicate AmongInts(v: Value, ks: seq<int>)
  {
    exists j :: 0 <= j < |ks| && EqualsInt(v, ks[j])
  }

  /** Integer arithmetic on two evaluated operands, left operand's error first. */
  function Arith(op: int, x: Result<Value, Failure>, y: Result<Value, Failure>): Result<Value, Failure>
  {
    if x.Err? then x
    else if y.Err? then y
    else if !x.value.Int? || !y.value.Int? then
      (if x.value.NoneValue? || y.value.NoneValue? then Err(TypeError) else Err(Unsupported))
    else if op == 0 then Ok(Int(x.value.i + y.value.i))
    else if op == 1 then Ok(Int(x.value.i - y.value.i))
    else Ok(Int(x.value.i * y.value.i))
  }

  /** A byte span, a BCD number or a date: the kinds that read `packet[start//8 : start//8 + length//8]`. */
  function SpanValue(kind: Kind, p: seq<uint8>, start: int, length: int): Result<Value, Failure>
  {
    var bytes := PySlice(p, start / 8, start / 8 + length / 8);
    match kind
    case Uimsbf => ReadUimsbf(p, start, length)
    case BcdNumber(dp) =>
      (match Bcd.BcdValue(bytes)
       case Err(_) => Err(TypeError)
       case Ok(v) => Ok(Number(v, dp)))
    case MjdTime =>
      (match Bcd.Mjd(bytes)
       case Err(_) => Err(IndexError)
       case Ok(None) => Ok(NoneValue)
       case Ok(Some(d)) => Ok(Date(d)))
    case AribStr => Ok(Arib(bytes))
    case Char => Ok(Text(Latin1(bytes)))
    case _ => Ok(Bytes(bytes))
  }

  /** `Descriptor.get(tag)`: the registered class, or the base class for an unknown tag. */
  function ClassForTag(reg: Registry, tag: int): Class
  {
    if tag in reg.tags then reg.tags[tag] else reg.base
  }

  /**
   * The walk of `descriptors.__get__`: from byte `start` while below `end`,
   * one descriptor of `packet[start + 1] + 2` bytes at a time, each built on
   * its own slice of the packet.
   */
  function Walk(reg: Registry, p: seq<uint8>, start: int, end: int): Result<seq<Node>, Failure>
    decreases end - start
  {
    if start >= end then Ok([])
    else if start < 0 then Err(Unsupported)
    else if start + 1 >= |p| then Err(IndexError)
    else
      var blockEnd := start + p[start + 1] + 2;
      var inner := Node(ClassForTag(reg, p[start]), PySlice(p, start, blockEnd), 0, None);
      match Walk(reg, p, blockEnd, end)
      case Err(e) => Err(e)
      case Ok(rest) => Ok([inner] + rest)
  }

  /** `result[desc_class].append(inner)` over the walked descriptors. */
  function Group(items: seq<Node>): map<Class, seq<Node>>
    decreases |items|
  {
    if items == [] then map[]
    else
      var m := Group(items[..|items| - 1]);
      var last := items[|items| - 1];
      m[last.cls := (if last.cls in m then m[last.cls] else []) + [last]]
  }

  /**
   * `getattr(n, name)`: a class attribute (a field) is read through its
   * `__get__`; when there is none, or when reading it raised AttributeError,
   * Python calls `__getattr__`.
   */
  function Get(env: Env, n: Node, name: string, fuel: nat): Result<Value, Failure>
    decreases fuel, 9, 0
  {
    if fuel == 0 then Err(OutOfFuel)
    else
      match Attribute(n.cls, name)
      case None => Missing(env, n, name, fuel - 1)
      case Some(at) =>
        var v := FieldValue(env, n, at.0, at.1, fuel - 1);
        if v.Err? && v.error.AttributeError? then Missing(env, n, name, fuel - 1) else v
  }

  /** `__getattr__`: `Syntax`'s search, which a `Section` turns from `None` into AttributeError. */
  function Missing(env: Env, n: Node, name: string, fuel: nat): (r: Result<Value, Failure>)
    ensures n.cls.section ==> r != Ok(NoneValue)
    decreases fuel, 8, 0
  {
    var r := SearchCases(env, n, Conditions(n.cls.fields), name, fuel);
    if n.cls.section && r == Ok(NoneValue) then Err(AttributeError(name)) else r
  }

  /**
   * The loop over `_conditions`: the first case whose condition holds answers
   * with the sub-layout's attribute, whatever it is; an AttributeError raised
   * on the way moves on to the next case. After the last case, the parent.
   */
  function SearchCases(env: Env, n: Node, conds: seq<(string, Cond)>, name: string, fuel: nat): Result<Value, Failure>
    decreases fuel, 7, |conds|
  {
    if conds == [] then ParentLookup(env, n, name, fuel)
    else if fuel == 0 then Err(OutOfFuel)
    else
      match Holds(env, n, conds[0].1, fuel - 1)
      case Err(e) => if e.AttributeError? then SearchCases(env, n, conds[1..], name, fuel) else Err(e)
      case Ok(false) => SearchCases(env, n, conds[1..], name, fuel)
      case Ok(true) =>
        match Get(env, n, conds[0].0, fuel - 1)
        case Err(e) => if e.AttributeError? then SearchCases(env, n, conds[1..], name, fuel) else Err(e)
        case Ok(sub) =>
          var v := if sub.Child? then Get(env, sub.node, name, fuel - 1) else Err(AttributeError(name));
          if v.Err? && v.error.AttributeError? then SearchCases(env, n, conds[1..], name, fuel) else v
  }

  /**
   * `self._parent and any(...)`: the parent answers only when it is truthy
   * (its length is not 0) and its own body declares `name`; otherwise `None`.
   */
  function ParentLookup(env: Env, n: Node, name: string, fuel: nat): (r: Result<Value, Failure>)
    ensures r.Ok? && r.value != NoneValue ==> n.parent.Some? && Declares(n.parent.value.cls.fields, name)
    decreases fuel, 5, 0
  {
    match n.parent
    case None => Ok(NoneValue)
    case Some(p) =>
      if fuel == 0 then Err(OutOfFuel)
      else
        match Truth(env, Child(p), fuel - 1)
        case Err(e) => Err(e)
        case Ok(false) => Ok(NoneValue)
        case Ok(true) => if Declares(p.cls.fields, name) then Get(env, p, name, fuel - 1) else Ok(NoneValue)
  }

  /** `__get__` of field `fields[k]` on instance `n`. */
  function FieldValue(env: Env, n: Node, fields: seq<Field>, k: nat, fuel: nat): Result<Value, Failure>
    requires k < |fields|
    decreases fuel, 9, 0
  {
    if fuel == 0 then Err(OutOfFuel)
    else
      var f := fields[k];
      match f.kind
      case Case(body, cond) =>
        (match Holds(env, n, cond, fuel - 1)
         case Err(e) => Err(e)
         case Ok(false) => Ok(NoneValue)
         case Ok(true) =>
           match Start(env, n, fields, k, fuel - 1)
           case Err(e) => Err(e)
           case Ok(s) => Ok(Child(Node(body, n.packet, s, Some(n)))))
      case SizeLoop(body) =>
        (match RealLength(env, n, f, fuel - 1)
         case Err(e) => Err(e)
         case Ok(len) =>
           match Start(env, n, fields, k, fuel - 1)
           case Err(e) => Err(e)
           case Ok(s) =>
             match SizeLoopFrom(env, n.packet, body, s / 8, s / 8 + len / 8, fuel - 1)
             case Err(e) => Err(e)
             case Ok(items) => Ok(Children(items)))
      case CountLoop(body, count) =>
        (match Start(env, n, fields, k, fuel - 1)
         case Err(e) => Err(e)
         case Ok(s) =>
           match Eval(env, n, count, fuel - 1)
           case Err(e) => Err(e)
           case Ok(c) =>
             if !c.Int? then Err(TypeError)
             else
               match CountLoopFrom(env, n.packet, body, s / 8, c.i, fuel - 1)
               case Err(e) => Err(e)
               case Ok(items) => Ok(Children(items)))
      case DescriptorList(dii) =>
        (match RealLength(env, n, f, fuel - 1)
         case Err(e) => Err(e)
         case Ok(len) =>
           match Start(env, n, fields, k, fuel - 1)
           case Err(e) => Err(e)
           case Ok(s) =>
             var reg := if dii then env.dii else env.descriptors;
             match Walk(reg, n.packet, s / 8, s / 8 + len / 8)
             case Err(e) => Err(e)
             case Ok(items) => Ok(Grouped(Group(items))))
      case BcdTime =>
        (match Start(env, n, fields, k, fuel - 1)
         case Err(e) => Err(e)
         case Ok(s) =>
           match Bcd.BcdTime(PySlice(n.packet, s / 8, s / 8 + 3))
           case Err(_) => Err(ValueError)
           case Ok(None) => Ok(NoneValue)
           case Ok(Some(t)) => Ok(Time(t)))
      case _ =>
        match Start(env, n, fields, k, fuel - 1)
        case Err(e) => Err(e)
        case Ok(s) =>
          match RealLength(env, n, f, fuel - 1)
          case Err(e) => Err(e)
          case Ok(len) => SpanValue(f.kind, n.packet, s, len)
  }

  /**
   * `real_length(instance)` of field `f`, in bits. A case table sums its
   * sub-layout's fields evaluated on the enclosing instance; a count loop sums
   * the lengths of the elements it built; every other field follows its
   * `length` argument.
   */
  function RealLength(env: Env, n: Node, f: Field, fuel: nat): Result<int, Failure>
    decreases fuel, 9, 0
  {
    if fuel == 0 then Err(OutOfFuel)
    else
      match f.kind
      case Case(body, cond) =>
        (match Holds(env, n, cond, fuel - 1)
         case Err(e) => Err(e)
         case Ok(false) => Ok(0)
         case Ok(true) => SumLengths(env, n, body.fields, fuel - 1))
      case CountLoop(_, _) =>
        (match Get(env, n, f.name, fuel - 1)
         case Err(e) => Err(e)
         case Ok(v) => if v.Children? then SumNodeLengths(env, v.nodes, fuel - 1) else Err(TypeError))
      case _ =>
        match f.length
        case Literal(b) => Ok(b)
        case Nested => if f.kind.SizeLoop? then SumLengths(env, n, f.kind.body.fields, fuel - 1) else Err(AttributeError("cls"))
        case ByField(name) =>
          (match Get(env, n, name, fuel - 1)
           case Err(e) => Err(e)
           case Ok(v) => if v.Int? then Ok(v.i * 8) else Err(TypeError))
        case Computed(e) =>
          match Eval(env, n, e, fuel - 1)
          case Err(e) => Err(e)
          case Ok(v) => if v.Int? then Ok(v.i * 8) else Err(TypeError)
  }

  /** `sum(m.real_length(n) for m in fs)`: left to right, the first exception wins. */
  function SumLengths(env: Env, n: Node, fs: seq<Field>, fuel: nat): Result<int, Failure>
    decreases fuel, 3, |fs|
  {
    if fs == [] then Ok(0)
    else if fuel == 0 then Err(OutOfFuel)
    else
      match RealLength(env, n, fs[0], fuel - 1)
      case Err(e) => Err(e)
      case Ok(a) =>
        match SumLengths(env, n, fs[1..], fuel)
        case Err(e) => Err(e)
        case Ok(b) => Ok(a + b)
  }

  /** The sum of every element's field lengths (`fixed_count_loop.real_length`). */
  function SumNodeLengths(env: Env, nodes: seq<Node>, fuel: nat): Result<int, Failure>
    decreases fuel, 3, |nodes|
  {
    if nodes == [] then Ok(0)
    else if fuel == 0 then Err(OutOfFuel)
    else
      match SumLengths(env, nodes[0], nodes[0].cls.fields, fuel - 1)
      case Err(e) => Err(e)
      case Ok(a) =>
        match SumNodeLengths(env, nodes[1..], fuel)
        case Err(e) => Err(e)
        case Ok(b) => Ok(a + b)
  }

  /** The `start` closure of `fields[k]`: the lengths of the fields before it, plus `_pos`. */
  function Start(env: Env, n: Node, fields: seq<Field>, k: nat, fuel: nat): Result<int, Failure>
    requires k <= |fields|
    decreases fuel, 4, 0
  {
    match SumLengths(env, n, fields[..k], fuel)
    case Err(e) => Err(e)
    case Ok(t) => Ok(t + n.pos)
  }

  /** `len(n)`: the bit length of a `Syntax`, the byte length of a `Section`'s packet. */
  function LenOf(env: Env, n: Node, fuel: nat): Result<int, Failure>
    decreases fuel, 4, 0
  {
    if n.cls.section then Ok(|n.packet|) else SumLengths(env, n, n.cls.fields, fuel)
  }

  /** Python's truth value of an attribute value; a `Syntax` is true when its length is not 0. */
  function Truth(env: Env, v: Value, fuel: nat): Result<bool, Failure>
    decreases fuel, 9, 0
  {
    match v
    case Int(i) => Ok(i != 0)
    case NoneValue => Ok(false)
    case Number(d, _) => Ok(d != 0)
    case Time(t) => Ok(t.TotalSeconds() != 0)
    case Date(_) => Ok(true)
    case Text(s) => Ok(s != [])
    case Arib(_) => Ok(true)
    case Bytes(b) => Ok(b != [])
    case Children(ns) => Ok(ns != [])
    case Grouped(g) => Ok(|g| != 0)
    case Child(node) =>
      if fuel == 0 then Err(OutOfFuel)
      else
        match LenOf(env, node, fuel - 1)
        case Err(e) => Err(e)
        case Ok(l) => if l < 0 then Err(ValueError) else Ok(l != 0)
  }

  /** A lambda body evaluated on `self == n`. */
  function Eval(env: Env, n: Node, e: Expr, fuel: nat): Result<Value, Failure>
    decreases fuel, 9, 0
  {
    if fuel == 0 then Err(OutOfFuel)
    else
      match e
      case Lit(k) => Ok(Int(k))
      case Attr(name) => Get(env, n, name, fuel - 1)
      case Plus(a, b) => Arith(0, Eval(env, n, a, fuel - 1), Eval(env, n, b, fuel - 1))
      case Minus(a, b) => Arith(1, Eval(env, n, a, fuel - 1), Eval(env, n, b, fuel - 1))
      case Times(a, b) => Arith(2, Eval(env, n, a, fuel - 1), Eval(env, n, b, fuel - 1))
      case IfThen(c, a, b) =>
        match Holds(env, n, c, fuel - 1)
        case Err(err) => Err(err)
        case Ok(true) => Eval(env, n, a, fuel - 1)
        case Ok(false) => Eval(env, n, b, fuel - 1)
  }

  /** A case condition on `n`. */
  function Holds(env: Env, n: Node, c: Cond, fuel: nat): Result<bool, Failure>
    decreases fuel, 9, 0
  {
    if fuel == 0 then Err(OutOfFuel)
    else
      match c
      case Truthy(e) =>
        (match Eval(env, n, e, fuel - 1)
         case Err(err) => Err(err)
         case Ok(v) => Truth(env, v, fuel - 1))
      case Equal(e, k) =>
        (match Eval(env, n, e, fuel - 1)
         case Err(err) => Err(err)
         case Ok(v) => Ok(EqualsInt(v, k)))
      case NotEqual(e, k) =>
        (match Eval(env, n, e, fuel - 1)
         case Err(err) => Err(err)
         case Ok(v) => Ok(!EqualsInt(v, k)))
      case Among(e, ks) =>
        (match Eval(env, n, e, fuel - 1)
         case Err(err) => Err(err)
         case Ok(v) => Ok(AmongInts(v, ks)))
      case NotAmong(e, ks) =>
        (match Eval(env, n, e, fuel - 1)
         case Err(err) => Err(err)
         case Ok(v) => Ok(!AmongInts(v, ks)))
      case Both(a, b) =>
        match Holds(env, n, a, fuel - 1)
        case Err(err) => Err(err)
        case Ok(false) => Ok(false)
        case Ok(true) => Holds(env, n, b, fuel - 1)
  }

  /**
   * `fixed_size_loop.__get__`: elements of `body` built back to back from byte
   * `start` while the cursor is below `end`, each advancing it by `len(obj) // 8`.
   */
  function SizeLoopFrom(env: Env, p: seq<uint8>, body: Class, start: int, end: int, fuel: nat): Result<seq<Node>, Failure>
    decreases fuel, 9, 0
  {
    if start >= end then Ok([])
    else if fuel == 0 then Err(OutOfFuel)
    else
      var obj := Node(body, p, start * 8, None);
      match LenOf(env, obj, fuel - 1)
      case Err(e) => Err(e)
      case Ok(l) =>
        if l < 0 then Err(ValueError)
        else
          match SizeLoopFrom(env, p, body, start + l / 8, end, fuel - 1)
          case Err(e) => Err(e)
          case Ok(rest) => Ok([obj] + rest)
  }

  /** `fixed_count_loop.__get__`: `count` elements built back to back from byte `start`. */
  function CountLoopFrom(env: Env, p: seq<uint8>, body: Class, start: int, count: int, fuel: nat): Result<seq<Node>, Failure>
    decreases fuel, 9, 0
  {
    if count <= 0 then Ok([])
    else if fuel == 0 then Err(OutOfFuel)
    else
      var obj := Node(body, p, start * 8, None);
      match LenOf(env, obj, fuel - 1)
      case Err(e) => Err(e)
      case Ok(l) =>
        if l < 0 then Err(ValueError)
        else
          match CountLoopFrom(env, p, body, start + l / 8, count - 1, fuel - 1)
          case Err(e) => Err(e)
          case Ok(rest) => Ok([obj] + rest)
  }

  /** One more field after a run of fields adds its real length, or its error. */
  lemma {:induction false} SumLengthsSnoc(env: Env, n: Node, fs: seq<Field>, f: Field, fuel: nat)
    requires fuel > 0
    ensures SumLengths(env, n, fs + [f], fuel) ==
      match SumLengths(env, n, fs, fuel)
      case Err(e) => Err(e)
      case Ok(a) =>
        match RealLength(env, n, f, fuel - 1)
        case Err(e) => Err(e)
        case Ok(b) => Ok(a + b)
    decreases |fs|
  {
    if fs == [] {
      assert fs + [f] == [f];
      assert [f][1..] == [];
    } else {
      assert (fs + [f])[0] == fs[0];
      assert (fs + [f])[1..] == fs[1..] + [f];
      SumLengthsSnoc(env, n, fs[1..], f, fuel);
    }
  }

  /** Field `k + 1` starts where field `k` ends: its start plus its real length. */
  lemma StartNext(env: Env, n: Node, fields: seq<Field>, k: nat, fuel: nat)
    requires k < |fields| && fuel > 0
    requires Start(env, n, fields, k, fuel).Ok? && RealLength(env, n, fields[k], fuel - 1).Ok?
    ensures Start(env, n, fields, k + 1, fuel) ==
      Ok(Start(env, n, fields, k, fuel).value + RealLength(env, n, fields[k], fuel - 1).value)
  {
    assert fields[..k + 1] == fields[..k] + [fields[k]];
    SumLengthsSnoc(env, n, fields[..k], fields[k], fuel);
  }

  /** The first field starts at the instance position. */
  lemma StartFirst(env: Env, n: Node, fields: seq<Field>, fuel: nat)
    ensures Start(env, n, fields, 0, fuel) == Ok(n.pos)
  {
    assert fields[..0] == [];
  }

  /** A field whose length is an int, and which is neither a case table nor a count loop. */
  predicate FixedWidth(f: Field)
  {
    f.length.Literal? && !f.kind.Case? && !f.kind.CountLoop?
  }

  /** The sum of the literal widths of a run of fields. */
  function Width(fs: seq<Field>): (r: nat)
  {
    if fs == [] then 0
    else (if fs[0].length.Literal? then fs[0].length.bits else 0) + Width(fs[1..])
  }

  /** A run of fixed-width fields measures the sum of its literal widths, whatever the packet. */
  lemma {:induction false} FixedWidthSum(env: Env, n: Node, fs: seq<Field>, fuel: nat)
    requires fuel >= 2
    requires forall j :: 0 <= j < |fs| ==> FixedWidth(fs[j])
    ensures SumLengths(env, n, fs, fuel) == Ok(Width(fs))
    decreases |fs|
  {
    if fs != [] {
      assert RealLength(env, n, fs[0], fuel - 1) == Ok(fs[0].length.bits);
      FixedWidthSum(env, n, fs[1..], fuel);
    }
  }

  /**
   * A `uimsbf` field of `b > 0` bits whose start is `s`: reading it gives the
   * big-endian value of bits `s .. s + b`, below `2^b`, or IndexError when
   * those bits run past the packet.
   */
  lemma UimsbfField(env: Env, n: Node, name: string, b: nat, s: int, fuel: nat)
    requires fuel >= 3 && b > 0 && s >= 0
    requires Attribute(n.cls, name).Some?
    requires Attribute(n.cls, name).value.0[Attribute(n.cls, name).value.1] == Field(name, Uimsbf, Literal(b))
    requires Start(env, n, Attribute(n.cls, name).value.0, Attribute(n.cls, name).value.1, fuel - 2) == Ok(s)
    ensures InRange(n.packet, s, b) ==> Get(env, n, name, fuel) == Ok(Int(Bits.Uimsbf(n.packet, s, b)))
    ensures InRange(n.packet, s, b) ==> Bits.Uimsbf(n.packet, s, b) < Pow2(b)
    ensures !InRange(n.packet, s, b) ==> Get(env, n, name, fuel) == Err(IndexError)
  {
    var at := Attribute(n.cls, name).value;
    assert RealLength(env, n, at.0[at.1], fuel - 2) == Ok(b);
    assert FieldValue(env, n, at.0, at.1, fuel - 1) == ReadUimsbf(n.packet, s, b);
  }

  /** A case table whose condition is false reads as `None` and measures 0 bits. */
  lemma CaseAbsent(env: Env, n: Node, name: string, body: Class, cond: Cond, fuel: nat)
    requires fuel >= 2
    requires Attribute(n.cls, name).Some?
    requires Attribute(n.cls, name).value.0[Attribute(n.cls, name).value.1] == Field(name, Case(body, cond), Nested)
    requires Holds(env, n, cond, fuel - 2) == Ok(false)
    ensures Get(env, n, name, fuel) == Ok(NoneValue)
    ensures RealLength(env, n, Field(name, Case(body, cond), Nested), fuel - 1) == Ok(0)
  {
  }

  /**
   * A case table whose condition holds reads as an instance of its body,
   * positioned where the case table starts, whose parent is the enclosing
   * instance; it measures the body's fields evaluated on the enclosing instance.
   */
  lemma CasePresent(env: Env, n: Node, name: string, body: Class, cond: Cond, s: int, fuel: nat)
    requires fuel >= 2
    requires Attribute(n.cls, name).Some?
    requires Attribute(n.cls, name).value.0[Attribute(n.cls, name).value.1] == Field(name, Case(body, cond), Nested)
    requires Holds(env, n, cond, fuel - 2) == Ok(true)
    requires Start(env, n, Attribute(n.cls, name).value.0, Attribute(n.cls, name).value.1, fuel - 2) == Ok(s)
    ensures Get(env, n, name, fuel) == Ok(Child(Node(body, n.packet, s, Some(n))))
    ensures RealLength(env, n, Field(name, Case(body, cond), Nested), fuel - 1) == SumLengths(env, n, body.fields, fuel - 2)
  {
  }

  /**
   * The elements of a size-bounded loop: instances of the body on the same
   * packet with no parent, each starting on a byte boundary inside
   * `[start, end)`, the first at `start`, in non-decreasing order.
   */
  lemma {:induction false} SizeLoopShape(env: Env, p: seq<uint8>, body: Class, start: int, end: int, fuel: nat)
    requires SizeLoopFrom(env, p, body, start, end, fuel).Ok?
    ensures var items := SizeLoopFrom(env, p, body, start, end, fuel).value;
      (items == [] <==> start >= end) &&
      (items != [] ==> items[0].pos == start * 8) &&
      (forall i :: 0 <= i < |items| ==>
        items[i] == Node(body, p, items[i].pos, None) && items[i].pos % 8 == 0 &&
        start * 8 <= items[i].pos < end * 8) &&
      (forall i, j :: 0 <= i < j < |items| ==> items[i].pos <= items[j].pos)
    decreases fuel
  {
    if start < end {
      var obj := Node(body, p, start * 8, None);
      var l := LenOf(env, obj, fuel - 1).value;
      SizeLoopShape(env, p, body, start + l / 8, end, fuel - 1);
    }
  }

  /** A count loop that completes holds exactly `count` elements (none for a count of 0 or less). */
  lemma {:induction false} CountLoopCount(env: Env, p: seq<uint8>, body: Class, start: int, count: int, fuel: nat)
    requires CountLoopFrom(env, p, body, start, count, fuel).Ok?
    ensures |CountLoopFrom(env, p, body, start, count, fuel).value| == if count <= 0 then 0 else count
    ensures forall i :: 0 <= i < |CountLoopFrom(env, p, body, start, count, fuel).value| ==>
      CountLoopFrom(env, p, body, start, count, fuel).value[i].pos % 8 == 0
    decreases fuel
  {
    if count > 0 {
      var obj := Node(body, p, start * 8, None);
      var l := LenOf(env, obj, fuel - 1).value;
      CountLoopCount(env, p, body, start + l / 8, count - 1, fuel - 1);
    }
  }

  /**
   * Every descriptor the walk builds stands on its own bytes: its slice starts
   * with its tag and its length byte, holds at most `length + 2` bytes, and
   * its class is the one registered for that tag.
   */
  lemma {:induction false} WalkShape(reg: Registry, p: seq<uint8>, start: int, end: int)
    requires Walk(reg, p, start, end).Ok?
    ensures Walk(reg, p, start, end).value == [] <==> start >= end
    ensures forall i :: 0 <= i < |Walk(reg, p, start, end).value| ==>
      var d := Walk(reg, p, start, end).value[i];
      2 <= |d.packet| <= d.packet[1] as int + 2 && d.cls == ClassForTag(reg, d.packet[0]) && d.pos == 0 && d.parent == None
    decreases end - start
  {
    if start < end {
      var blockEnd := start + p[start + 1] + 2;
      var d := PySlice(p, start, blockEnd);
      assert d == p[start..Clamp(blockEnd, |p|)];
      assert d[0] == p[start] && d[1] == p[start + 1];
      WalkShape(reg, p, blockEnd, end);
    }
  }

  /** The first descriptor of a walk starts at the cursor. */
  lemma WalkFirst(reg: Registry, p: seq<uint8>, start: int, end: int)
    requires Walk(reg, p, start, end).Ok? && start < end
    ensures Walk(reg, p, start, end).value[0] ==
      Node(ClassForTag(reg, p[start]), PySlice(p, start, start + p[start + 1] + 2), 0, None)
  {
  }

  /** The descriptors of class `c`, in stream order. */
  function OfClass(items: seq<Node>, c: Class): seq<Node>
  {
    if items == [] then []
    else OfClass(items[..|items| - 1], c) + (if items[|items| - 1].cls == c then [items[|items| - 1]] else [])
  }

  /**
   * The grouped dictionary has a key for exactly the classes that occur, and
   * each key lists that class's descriptors in stream order.
   */
  lemma {:induction false} GroupByClass(items: seq<Node>)
    ensures forall c :: c in Group(items) <==> exists i :: 0 <= i < |items| && items[i].cls == c
    ensures forall c :: c in Group(items) ==> Group(items)[c] == OfClass(items, c)
    decreases |items|
  {
    if items != [] {
      var init := items[..|items| - 1];
      GroupByClass(init);
      forall c | c !in Group(init)
        ensures OfClass(init, c) == []
      {
        OfClassEmpty(init, c);
      }
      forall c
        ensures c in Group(items) <==> exists i :: 0 <= i < |items| && items[i].cls == c
      {
        if exists i :: 0 <= i < |init| && init[i].cls == c {
          var i :| 0 <= i < |init| && init[i].cls == c;
          assert items[i] == init[i];
        }
        if exists i :: 0 <= i < |items| && items[i].cls == c {
          var i :| 0 <= i < |items| && items[i].cls == c;
          if i < |init| {
            assert init[i] == items[i];
          }
        }
      }
    }
  }

  /** A class that does not occur has no descriptors. */
  lemma {:induction false} OfClassEmpty(items: seq<Node>, c: Class)
    requires forall i :: 0 <= i < |items| ==> items[i].cls != c
    ensures OfClass(items, c) == []
    decreases |items|
  {
    if items != [] {
      OfClassEmpty(items[..|items| - 1], c);
    }
  }

  /**
   * When no case condition holds, the search falls through to the parent:
   * a lookup's answer then comes from the parent or is `None`.
   */
  lemma {:induction false} NoBranchHolds(env: Env, n: Node, conds: seq<(string, Cond)>, name: string, fuel: nat)
    requires fuel > 0
    requires forall i :: 0 <= i < |conds| ==> Holds(env, n, conds[i].1, fuel - 1) == Ok(false)
    ensures SearchCases(env, n, conds, name, fuel) == ParentLookup(env, n, name, fuel)
    decreases |conds|
  {
    if conds != [] {
      assert Holds(env, n, conds[0].1, fuel - 1) == Ok(false);
      NoBranchHolds(env, n, conds[1..], name, fuel);
    }
  }

  /**
   * The first case whose condition holds answers, whatever its answer: a
   * sub-layout that yields `None` for `name` ends the search with `None`, and
   * the later branches are never consulted.
   */
  lemma FirstTrueBranchAnswers(env: Env, n: Node, conds: seq<(string, Cond)>, name: string, sub: Node, fuel: nat)
    requires fuel > 0 && conds != []
    requires Holds(env, n, conds[0].1, fuel - 1) == Ok(true)
    requires Get(env, n, conds[0].0, fuel - 1) == Ok(Child(sub))
    requires Get(env, sub, name, fuel - 1).Ok?
    ensures SearchCases(env, n, conds, name, fuel) == Get(env, sub, name, fuel - 1)
  {
  }

  /** Measuring two runs of fields one after the other measures their concatenation. */
  lemma {:induction false} SumLengthsAppend(env: Env, n: Node, a: seq<Field>, b: seq<Field>, fuel: nat)
    ensures SumLengths(env, n, a + b, fuel) ==
      match SumLengths(env, n, a, fuel)
      case Err(e) => Err(e)
      case Ok(x) =>
        match SumLengths(env, n, b, fuel)
        case Err(e) => Err(e)
        case Ok(y) => Ok(x + y)
    decreases |a|
  {
    if a == [] {
      assert a + b == b;
    } else {
      assert (a + b)[0] == a[0];
      assert (a + b)[1..] == a[1..] + b;
      SumLengthsAppend(env, n, a[1..], b, fuel);
    }
  }

  /** The names of a run of fields. */
  function Names(fs: seq<Field>): (r: seq<string>)
    ensures |r| == |fs| && forall j :: 0 <= j < |fs| ==> r[j] == fs[j].name
  {
    if fs == [] then [] else [fs[0].name] + Names(fs[1..])
  }

  /**
   * The names `get_names` takes from a true case table's body. The body is
   * instantiated on the enclosing instance itself rather than on bytes, so
   * a case table nested inside it cannot evaluate its condition.
   */
  function BodyNames(fs: seq<Field>): (r: Result<seq<string>, Failure>)
    ensures r.Ok? <==> forall j :: 0 <= j < |fs| ==> !fs[j].kind.Case?
    ensures r.Ok? ==> r.value == Names(fs)
  {
    if exists j :: 0 <= j < |fs| && fs[j].kind.Case? then Err(TypeError) else Ok(Names(fs))
  }

  /**
   * `get_names` over `fs`: each field's name in declaration order, a case
   * table whose condition holds replaced by its body's names, a case table
   * whose condition fails dropped.
   */
  function NamesFrom(env: Env, n: Node, fs: seq<Field>, fuel: nat): (r: Result<seq<string>, Failure>)
    ensures (forall j :: 0 <= j < |fs| ==> !fs[j].kind.Case?) ==> r == Ok(Names(fs))
    ensures r.Ok? ==> |r.value| >= |fs| - |Conditions(fs)|
  {
    if fs == [] then Ok([])
    else
      var rest := NamesFrom(env, n, fs[1..], fuel);
      if fs[0].kind.Case? then
        match Holds(env, n, fs[0].kind.cond, fuel)
        case Err(e) => Err(e)
        case Ok(false) => rest
        case Ok(true) =>
          match BodyNames(fs[0].kind.body.fields)
          case Err(e) => Err(e)
          case Ok(names) => if rest.Err? then rest else Ok(names + rest.value)
      else if rest.Err? then rest
      else Ok([fs[0].name] + rest.value)
  }

  /**
   * One field of `get_names`'s loop: a plain field appends its name, a case
   * table whose condition holds appends its body's names, and one whose
   * condition fails appends nothing.
   */
  lemma NamesFromStep(env: Env, n: Node, f: Field, rest: seq<Field>, fuel: nat)
    requires NamesFrom(env, n, [f] + rest, fuel).Ok?
    ensures NamesFrom(env, n, rest, fuel).Ok?
    ensures !f.kind.Case? ==>
      NamesFrom(env, n, [f] + rest, fuel).value == [f.name] + NamesFrom(env, n, rest, fuel).value
    ensures f.kind.Case? && Holds(env, n, f.kind.cond, fuel) == Ok(false) ==>
      NamesFrom(env, n, [f] + rest, fuel).value == NamesFrom(env, n, rest, fuel).value
    ensures f.kind.Case? && Holds(env, n, f.kind.cond, fuel) == Ok(true) ==>
      BodyNames(f.kind.body.fields).Ok? &&
      NamesFrom(env, n, [f] + rest, fuel).value == Names(f.kind.body.fields) + NamesFrom(env, n, rest, fuel).value
  {
    assert ([f] + rest)[0] == f && ([f] + rest)[1..] == rest;
  }

  /** Two results in sequence: the first exception wins, otherwise the lists are concatenated. */
  function Then(x: Result<seq<string>, Failure>, y: Result<seq<string>, Failure>): (r: Result<seq<string>, Failure>)
    ensures r.Ok? <==> x.Ok? && y.Ok?
    ensures r.Ok? ==> r.value == x.value + y.value
    ensures x.Err? ==> r == x
    ensures x.Ok? && y.Err? ==> r == y
  {
    if x.Err? then x else if y.Err? then y else Ok(x.value + y.value)
  }

  lemma ThenAssoc(x: Result<seq<string>, Failure>, y: Result<seq<string>, Failure>, z: Result<seq<string>, Failure>)
    ensures Then(x, Then(y, z)) == Then(Then(x, y), z)
  {
    if x.Ok? && y.Ok? && z.Ok? {
      assert x.value + (y.value + z.value) == (x.value + y.value) + z.value;
    }
  }

  /**
   * What one field adds to `get_names`, on its own: its name, or for a case
   * table its body's names when the condition holds and nothing when it fails.
   */
  function FieldNames(env: Env, n: Node, f: Field, fuel: nat): (r: Result<seq<string>, Failure>)
    ensures !f.kind.Case? ==> r == Ok([f.name])
    ensures f.kind.Case? && Holds(env, n, f.kind.cond, fuel) == Ok(false) ==> r == Ok([])
    ensures f.kind.Case? && Holds(env, n, f.kind.cond, fuel) == Ok(true) ==> r == BodyNames(f.kind.body.fields)
  {
    if f.kind.Case? then
      match Holds(env, n, f.kind.cond, fuel)
      case Err(e) => Err(e)
      case Ok(false) => Ok([])
      case Ok(true) => BodyNames(f.kind.body.fields)
    else Ok([f.name])
  }

  /** The loop is the first field's contribution followed by the rest's. */
  lemma NamesFromCons(env: Env, n: Node, f: Field, rest: seq<Field>, fuel: nat)
    ensures NamesFrom(env, n, [f] + rest, fuel) == Then(FieldNames(env, n, f, fuel), NamesFrom(env, n, rest, fuel))
  {
    assert ([f] + rest)[0] == f && ([f] + rest)[1..] == rest;
    if NamesFrom(env, n, rest, fuel).Ok? {
      assert [] + NamesFrom(env, n, rest, fuel).value == NamesFrom(env, n, rest, fuel).value;
    }
  }

  /**
   * The loop over two runs of fields is the loop over the first and then the
   * second, and the first exception in declaration order is the one raised.
   */
  lemma {:induction false} NamesFromAppend(env: Env, n: Node, a: seq<Field>, b: seq<Field>, fuel: nat)
    ensures NamesFrom(env, n, a + b, fuel) == Then(NamesFrom(env, n, a, fuel), NamesFrom(env, n, b, fuel))
    decreases |a|
  {
    if a == [] {
      assert a + b == b;
      assert NamesFrom(env, n, a, fuel) == Ok([]);
      if NamesFrom(env, n, b, fuel).Ok? {
        assert [] + NamesFrom(env, n, b, fuel).value == NamesFrom(env, n, b, fuel).value;
      }
    } else {
      assert a + b == [a[0]] + (a[1..] + b);
      assert a == [a[0]] + a[1..];
      NamesFromCons(env, n, a[0], a[1..] + b, fuel);
      NamesFromCons(env, n, a[0], a[1..], fuel);
      NamesFromAppend(env, n, a[1..], b, fuel);
      ThenAssoc(FieldNames(env, n, a[0], fuel), NamesFrom(env, n, a[1..], fuel), NamesFrom(env, n, b, fuel));
    }
  }

  /**
   * What `get_names` lists: every plain field's name and the names of every
   * case table whose condition holds; and nothing else.
   */
  lemma {:induction false} NamesFromMembers(env: Env, n: Node, fs: seq<Field>, fuel: nat)
    requires NamesFrom(env, n, fs, fuel).Ok?
    ensures forall j :: 0 <= j < |fs| && !fs[j].kind.Case? ==> fs[j].name in NamesFrom(env, n, fs, fuel).value
    ensures forall j :: 0 <= j < |fs| && fs[j].kind.Case? && Holds(env, n, fs[j].kind.cond, fuel) == Ok(true) ==>
      forall x :: x in Names(fs[j].kind.body.fields) ==> x in NamesFrom(env, n, fs, fuel).value
    ensures forall x :: x in NamesFrom(env, n, fs, fuel).value ==>
      exists j :: (0 <= j < |fs| &&
        ((!fs[j].kind.Case? && fs[j].name == x) ||
         (fs[j].kind.Case? && Holds(env, n, fs[j].kind.cond, fuel) == Ok(true) && x in Names(fs[j].kind.body.fields))))
    decreases |fs|
  {
    if fs != [] {
      var rest := fs[1..];
      assert fs == [fs[0]] + rest;
      NamesFromStep(env, n, fs[0], rest, fuel);
      NamesFromMembers(env, n, rest, fuel);
      var r := NamesFrom(env, n, fs, fuel).value;
      var rr := NamesFrom(env, n, rest, fuel).value;
      assert forall x :: x in rr ==> x in r;
      forall j | 1 <= j < |fs|
        ensures fs[j] == rest[j - 1]
      {
      }
      forall x | x in r
        ensures exists j :: (0 <= j < |fs| &&
          ((!fs[j].kind.Case? && fs[j].name == x) ||
           (fs[j].kind.Case? && Holds(env, n, fs[j].kind.cond, fuel) == Ok(true) && x in Names(fs[j].kind.body.fields))))
      {
        if x in rr {
          var k :| 0 <= k < |rest| &&
            ((!rest[k].kind.Case? && rest[k].name == x) ||
             (rest[k].kind.Case? && Holds(env, n, rest[k].kind.cond, fuel) == Ok(true) && x in Names(rest[k].kind.body.fields)));
          assert fs[k + 1] == rest[k];
        } else {
          assert fs[0] == fs[0];
        }
      }
    }
  }

  /** `n.get_names()`. */
  function GetNames(env: Env, n: Node, fuel: nat): Result<seq<string>, Failure>
  {
    NamesFrom(env, n, n.cls.fields, fuel)
  }

  /** Measuring one more field of a run extends the prefix's measure by the field's length. */
  lemma SumLengthsPrefixOk(env: Env, n: Node, fs: seq<Field>, i: nat, fuel: nat, t: int, l: int)
    requires i < |fs| && fuel > 0
    requires SumLengths(env, n, fs[..i], fuel) == Ok(t) && RealLength(env, n, fs[i], fuel - 1) == Ok(l)
    ensures SumLengths(env, n, fs[..i + 1], fuel) == Ok(t + l)
  {
    assert fs[..i + 1] == fs[..i] + [fs[i]];
    SumLengthsSnoc(env, n, fs[..i], fs[i], fuel);
  }

  /** The first field whose length raises makes the whole run raise the same exception. */
  lemma SumLengthsPrefixErr(env: Env, n: Node, fs: seq<Field>, i: nat, fuel: nat, t: int, e: Failure)
    requires i < |fs| && fuel > 0
    requires SumLengths(env, n, fs[..i], fuel) == Ok(t) && RealLength(env, n, fs[i], fuel - 1) == Err(e)
    ensures SumLengths(env, n, fs, fuel) == Err(e)
  {
    assert fs[..i + 1] == fs[..i] + [fs[i]];
    SumLengthsSnoc(env, n, fs[..i], fs[i], fuel);
    assert fs == fs[..i + 1] + fs[i + 1..];
    SumLengthsAppend(env, n, fs[..i + 1], fs[i + 1..], fuel);
  }

  /**
   * A `uimsbf` field of `b > 0` bits preceded only by fixed-width fields
   * reads bits `pos + w .. pos + w + b`, `w` being their total width.
   */
  lemma FixedOffsetRead(env: Env, n: Node, name: string, b: nat, fuel: nat)
    requires fuel >= 4 && b > 0 && n.pos >= 0
    requires Attribute(n.cls, name).Some?
    requires Attribute(n.cls, name).value.0[Attribute(n.cls, name).value.1] == Field(name, Uimsbf, Literal(b))
    requires forall j :: 0 <= j < Attribute(n.cls, name).value.1 ==> FixedWidth(Attribute(n.cls, name).value.0[j])
    ensures var s := n.pos + Width(Attribute(n.cls, name).value.0[..Attribute(n.cls, name).value.1]);
      InRange(n.packet, s, b) ==> Get(env, n, name, fuel) == Ok(Int(Bits.Uimsbf(n.packet, s, b)))
  {
    var at := Attribute(n.cls, name).value;
    FixedWidthSum(env, n, at.0[..at.1], fuel - 2);
    UimsbfField(env, n, name, b, n.pos + Width(at.0[..at.1]), fuel);
  }

  /** `count` instances of `body` every `w` bytes from byte `start`. */
  function Tiles(body: Class, p: seq<uint8>, start: int, count: nat, w: int): (r: seq<Node>)
    ensures |r| == count
    ensures forall i :: 0 <= i < count ==> r[i] == Node(body, p, (start + w * i) * 8, None)
    decreases count
  {
    if count == 0 then []
    else
      var rest := Tiles(body, p, start + w, count - 1, w);
      assert forall i :: 0 < i < count ==> start + w + w * (i - 1) == start + w * i;
      [Node(body, p, start * 8, None)] + rest
  }

  /** The number of `w`-byte strides that start below `span`: `span / w` rounded up. */
  function Strides(span: int, w: nat): nat
    requires w > 0
  {
    if span <= 0 then 0 else (span + w - 1) / w
  }

  lemma StridesStep(span: int, w: nat)
    requires w > 0 && span > 0
    ensures Strides(span, w) == 1 + Strides(span - w, w)
  {
    if span - w > 0 {
      DivModUnique(span + w - 1, w, 1 + (span - 1) / w, (span - 1) % w);
    } else {
      DivModUnique(span + w - 1, w, 1, span - 1);
    }
  }

  /** A field after fixed-width fields only starts where they end. */
  lemma FixedPrefixStart(env: Env, n: Node, fs: seq<Field>, k: nat, s: int, fuel: nat)
    requires k <= |fs| && FixedPrefix(fs, k) && s == n.pos + PrefixWidth(fs, k) && fuel >= 2
    ensures Start(env, n, fs, k, fuel) == Ok(s)
  {
    PrefixFacts(fs, k);
    FixedWidthSum(env, n, fs[..k], fuel);
  }

  /** A body whose fields are all fixed-width, of total width `8 * w`. */
  lemma FixedBody(fs: seq<Field>, w: nat)
    requires FixedPrefix(fs, |fs|) && PrefixWidth(fs, |fs|) == 8 * w
    ensures forall j :: 0 <= j < |fs| ==> FixedWidth(fs[j])
    ensures Width(fs) == 8 * w
  {
    PrefixFacts(fs, |fs|);
    assert fs[..|fs|] == fs;
  }

  /**
   * A size-bounded loop over a body of fixed width `w > 0` bytes: the
   * elements are the `w`-byte tiles from `start`, as many as start below
   * `end`; the last one may run past `end`.
   */
  lemma {:induction false} FixedStrideLoop(env: Env, p: seq<uint8>, body: Class, start: int, end: int, w: nat, fuel: nat)
    requires w > 0 && !body.section
    requires forall j :: 0 <= j < |body.fields| ==> FixedWidth(body.fields[j])
    requires Width(body.fields) == 8 * w
    requires fuel >= 3 && fuel >= end - start + 3
    ensures SizeLoopFrom(env, p, body, start, end, fuel) == Ok(Tiles(body, p, start, Strides(end - start, w), w))
    decreases end - start
  {
    if start < end {
      var obj := Node(body, p, start * 8, None);
      FixedWidthSum(env, obj, body.fields, fuel - 1);
      assert LenOf(env, obj, fuel - 1) == Ok(8 * w);
      FixedStrideLoop(env, p, body, start + w, end, w, fuel - 1);
      StridesStep(end - start, w);
    }
  }

  /** The total literal width of the first `k` fields. */
  function PrefixWidth(fs: seq<Field>, k: nat): nat
    requires k <= |fs|
  {
    if k == 0 then 0 else PrefixWidth(fs, k - 1) + (if fs[k - 1].length.Literal? then fs[k - 1].length.bits else 0)
  }

  /** The first `k` fields are all fixed-width. */
  predicate FixedPrefix(fs: seq<Field>, k: nat)
    requires k <= |fs|
  {
    k == 0 || (FixedPrefix(fs, k - 1) && FixedWidth(fs[k - 1]))
  }

  /** No field from index `j` on is called `name`. */
  predicate NoLaterName(fs: seq<Field>, name: string, j: nat)
    decreases |fs| - j
  {
    j >= |fs| || (fs[j].name != name && NoLaterName(fs, name, j + 1))
  }

  lemma {:induction false} PrefixFacts(fs: seq<Field>, k: nat)
    requires k <= |fs| && FixedPrefix(fs, k)
    ensures forall j :: 0 <= j < k ==> FixedWidth(fs[j])
    ensures Width(fs[..k]) == PrefixWidth(fs, k)
  {
    if k > 0 {
      PrefixFacts(fs, k - 1);
      assert fs[..k] == fs[..k - 1] + [fs[k - 1]];
      WidthAppend(fs[..k - 1], [fs[k - 1]]);
      assert [fs[k - 1]][1..] == [];
    }
  }

  lemma {:induction false} WidthAppend(a: seq<Field>, b: seq<Field>)
    ensures Width(a + b) == Width(a) + Width(b)
    decreases |a|
  {
    if a == [] {
      assert a + b == b;
    } else {
      assert (a + b)[0] == a[0];
      assert (a + b)[1..] == a[1..] + b;
      WidthAppend(a[1..], b);
    }
  }

  lemma {:induction false} NoLaterNameFacts(fs: seq<Field>, name: string, j: nat)
    requires NoLaterName(fs, name, j)
    ensures forall i :: j <= i < |fs| ==> fs[i].name != name
    decreases |fs| - j
  {
    if j < |fs| {
      NoLaterNameFacts(fs, name, j + 1);
    }
  }

  /** A field of the class body that no later field shadows is the attribute its name resolves to. */
  lemma OwnField(cls: Class, k: nat)
    requires k < |cls.fields| && NoLaterName(cls.fields, cls.fields[k].name, k + 1)
    ensures Attribute(cls, cls.fields[k].name) == Some((cls.fields, k))
  {
    NoLaterNameFacts(cls.fields, cls.fields[k].name, k + 1);
  }

  /**
   * Field `k` of the class body of `n` is a `uimsbf` called `name` of `b > 0`
   * bits, after fixed-width fields only and not shadowed by a later field;
   * those fields end at bit `s`.
   */
  predicate FixedField(n: Node, k: nat, name: string, b: nat, s: int)
  {
    b > 0 && n.pos >= 0 && k < |n.cls.fields| && n.cls.fields[k] == Field(name, Uimsbf, Literal(b)) &&
    FixedPrefix(n.cls.fields, k) && NoLaterName(n.cls.fields, name, k + 1) &&
    s == n.pos + PrefixWidth(n.cls.fields, k)
  }

  /** Such a field reads as the `b` bits from bit `s`. */
  lemma OwnFixedValue(env: Env, n: Node, k: nat, name: string, b: nat, s: nat, fuel: nat)
    requires fuel >= 4 && FixedField(n, k, name, b, s) && InRange(n.packet, s, b)
    ensures Get(env, n, name, fuel) == Ok(Int(Bits.Uimsbf(n.packet, s, b)))
  {
    OwnField(n.cls, k);
    PrefixFacts(n.cls.fields, k);
    FixedOffsetRead(env, n, name, b, fuel);
  }

  /** The same, for a value `v` those bits are known to hold. */
  lemma OwnFixedRead(env: Env, n: Node, k: nat, name: string, b: nat, s: nat, v: int, fuel: nat)
    requires fuel >= 4 && FixedField(n, k, name, b, s) && InRange(n.packet, s, b) && Bits.Uimsbf(n.packet, s, b) == v
    ensures Get(env, n, name, fuel) == Ok(Int(v))
  {
    OwnFixedValue(env, n, k, name, b, s, fuel);
  }

  /** A byte-aligned 8-bit field at byte `j` reads as that byte. */
  lemma OwnByteRead(env: Env, n: Node, k: nat, name: string, s: nat, j: nat, fuel: nat)
    requires fuel >= 4 && FixedField(n, k, name, 8, s) && s == 8 * j && j < |n.packet|
    ensures Get(env, n, name, fuel) == Ok(Int(n.packet[j] as int))
  {
    ByteAt(n.packet, s, j, 8);
    OwnFixedRead(env, n, k, name, 8, s, n.packet[j] as int, fuel);
  }

  /** A 13-bit field from 3 bits into byte `j` (a PID) reads as the low five bits of that byte and all of the next. */
  lemma OwnPidRead(env: Env, n: Node, k: nat, name: string, s: nat, j: nat, fuel: nat)
    requires fuel >= 4 && FixedField(n, k, name, 13, s) && s == 8 * j + 3 && j + 1 < |n.packet|
    ensures Get(env, n, name, fuel) == Ok(Int(Pid13(n.packet, j)))
  {
    var v := Pid13(n.packet, j);
    assert InRange(n.packet, s, 13) && Bits.Uimsbf(n.packet, s, 13) == v by {
      PidBitsAt(n.packet, s, j);
    }
    OwnFixedRead(env, n, k, name, 13, s, v, fuel);
  }

  /** A 12-bit field from 4 bits into byte `j` (a length) reads as the low four bits of that byte and all of the next. */
  lemma OwnLow12Read(env: Env, n: Node, k: nat, name: string, s: nat, j: nat, fuel: nat)
    requires fuel >= 4 && FixedField(n, k, name, 12, s) && s == 8 * j + 4 && j + 1 < |n.packet|
    ensures Get(env, n, name, fuel) == Ok(Int(Low12(n.packet, j)))
  {
    var v := Low12(n.packet, j);
    assert InRange(n.packet, s, 12) && Bits.Uimsbf(n.packet, s, 12) == v by {
      Low12BitsAt(n.packet, s, j);
    }
    OwnFixedRead(env, n, k, name, 12, s, v, fuel);
  }

  /** A byte-aligned field of `c` whole bytes from byte `j` reads as their big-endian value. */
  lemma OwnBytesRead(env: Env, n: Node, k: nat, name: string, s: nat, j: nat, c: nat, fuel: nat)
    requires fuel >= 4 && c > 0 && FixedField(n, k, name, 8 * c, s) && s == 8 * j && j + c <= |n.packet|
    ensures Get(env, n, name, fuel) == Ok(Int(BigEndian(n.packet[j..j + c])))
  {
    var v := BigEndian(n.packet[j..j + c]);
    assert InRange(n.packet, s, 8 * c) && Bits.Uimsbf(n.packet, s, 8 * c) == v by {
      UimsbfBigEndian(n.packet, s, 8 * c, j, c);
    }
    OwnFixedRead(env, n, k, name, 8 * c, s, v, fuel);
  }

  /** A field of `b` bits from bit `o` of byte `j` reads as those bits of that byte. */
  lemma OwnBitsInByteRead(env: Env, n: Node, k: nat, name: string, b: nat, s: nat, j: nat, o: nat, fuel: nat)
    requires fuel >= 4 && o + b <= 8 && FixedField(n, k, name, b, s) && s == 8 * j + o && j < |n.packet|
    ensures Get(env, n, name, fuel) == Ok(Int(Masked(n.packet[j], 8 - o, 8 - o - b)))
  {
    var v := Masked(n.packet[j], 8 - o, 8 - o - b);
    assert InRange(n.packet, s, b) && Bits.Uimsbf(n.packet, s, b) == v by {
      UimsbfOneByte(n.packet, s, b, j, o, 8 - o, 8 - o - b);
    }
    OwnFixedRead(env, n, k, name, b, s, v, fuel);
  }

  /** A length given by another field `m` is that field's value, in bytes. */
  lemma ByFieldLength(env: Env, n: Node, f: Field, m: string, c: int, fuel: nat)
    requires fuel >= 2 && !f.kind.Case? && !f.kind.CountLoop? && f.length == ByField(m)
    requires Get(env, n, m, fuel - 1) == Ok(Int(c))
    ensures RealLength(env, n, f, fuel) == Ok(8 * c)
  {
  }

  /** A length given by a lambda is the lambda's value, in bytes. */
  lemma ComputedLength(env: Env, n: Node, f: Field, e: Expr, c: int, fuel: nat)
    requires fuel >= 2 && !f.kind.Case? && !f.kind.CountLoop? && f.length == Computed(e)
    requires Eval(env, n, e, fuel - 1) == Ok(Int(c))
    ensures RealLength(env, n, f, fuel) == Ok(8 * c)
  {
  }

  /** `self.m - k` for an integer attribute `m`. */
  lemma MinusLiteral(env: Env, n: Node, m: string, k: int, c: int, fuel: nat)
    requires fuel >= 2 && Get(env, n, m, fuel - 2) == Ok(Int(c))
    ensures Eval(env, n, Minus(Attr(m), Lit(k)), fuel) == Ok(Int(c - k))
  {
  }

  /** A length `lambda self: self.m - d` for an integer attribute `m`, in bytes. */
  lemma MinusLength(env: Env, n: Node, f: Field, m: string, d: int, c: int, fuel: nat)
    requires fuel >= 3 && !f.kind.Case? && !f.kind.CountLoop? && f.length == Computed(Minus(Attr(m), Lit(d)))
    requires Get(env, n, m, fuel - 3) == Ok(Int(c))
    ensures RealLength(env, n, f, fuel) == Ok(8 * (c - d))
  {
    MinusLiteral(env, n, m, d, c, fuel - 1);
    ComputedLength(env, n, f, Minus(Attr(m), Lit(d)), c - d, fuel);
  }

  /** `self.m == k` and `self.m != k` for an integer attribute `m`: exactly one of them holds. */
  lemma EqualityConditions(env: Env, n: Node, m: string, k: int, c: int, fuel: nat)
    requires fuel >= 3 && Get(env, n, m, fuel - 2) == Ok(Int(c))
    ensures Holds(env, n, Equal(Attr(m), k), fuel) == Ok(c == k)
    ensures Holds(env, n, NotEqual(Attr(m), k), fuel) == Ok(c != k)
  {
  }

  /** An integer attribute used as a condition holds when it is not 0. */
  lemma TruthyCondition(env: Env, n: Node, m: string, c: int, fuel: nat)
    requires fuel >= 3 && Get(env, n, m, fuel - 2) == Ok(Int(c))
    ensures Holds(env, n, Truthy(Attr(m)), fuel) == Ok(c != 0)
  {
  }

  /**
   * A size-bounded loop over a body of fixed width `w` bytes, at field `k`
   * after fixed-width fields ending at bit `s` and measuring `c` bytes: the
   * `w`-byte tiles from byte `s / 8`, as many as start within those `c` bytes.
   */
  lemma StrideLoopValue(env: Env, n: Node, fs: seq<Field>, k: nat, body: Class, s: int, c: int, w: nat, fuel: nat)
    requires k < |fs| && fs[k].kind == SizeLoop(body) && FixedPrefix(fs, k) && s == n.pos + PrefixWidth(fs, k)
    requires w > 0 && !body.section && FixedPrefix(body.fields, |body.fields|) && PrefixWidth(body.fields, |body.fields|) == 8 * w
    requires fuel >= 4 && fuel >= c + 4 && RealLength(env, n, fs[k], fuel - 1) == Ok(8 * c)
    ensures FieldValue(env, n, fs, k, fuel) == Ok(Children(Tiles(body, n.packet, s / 8, Strides(c, w), w)))
  {
    FixedPrefixStart(env, n, fs, k, s, fuel - 1);
    FixedBody(body.fields, w);
    var start, end := s / 8, s / 8 + c;
    FixedStrideLoop(env, n.packet, body, start, end, w, fuel - 1);
    assert (8 * c) / 8 == c;
  }

  /**
   * Field `k` of the class body of `n` is a size-bounded loop called `name`
   * over a body of fixed width `w` bytes, after fixed-width fields only that
   * end at bit `s`, and no later field shadows it.
   */
  predicate StrideField(n: Node, k: nat, name: string, body: Class, s: int, w: nat)
  {
    k < |n.cls.fields| && n.cls.fields[k].name == name && n.cls.fields[k].kind == SizeLoop(body) &&
    FixedPrefix(n.cls.fields, k) && NoLaterName(n.cls.fields, name, k + 1) && s == n.pos + PrefixWidth(n.cls.fields, k) &&
    w > 0 && !body.section && FixedPrefix(body.fields, |body.fields|) && PrefixWidth(body.fields, |body.fields|) == 8 * w
  }

  /** Such a loop read by name, when it measures `c` bytes. */
  lemma OwnStrideLoopRead(env: Env, n: Node, k: nat, name: string, body: Class, s: int, c: int, w: nat, fuel: nat)
    requires StrideField(n, k, name, body, s, w)
    requires fuel >= 5 && fuel >= c + 5 && RealLength(env, n, n.cls.fields[k], fuel - 2) == Ok(8 * c)
    ensures Get(env, n, name, fuel) == Ok(Children(Tiles(body, n.packet, s / 8, Strides(c, w), w)))
  {
    OwnField(n.cls, k);
    StrideLoopValue(env, n, n.cls.fields, k, body, s, c, w, fuel - 1);
  }

  /** Field `k` of the class body of `n` is a case table called `name` on `cond`, and no later field shadows it. */
  predicate CaseField(n: Node, k: nat, name: string, body: Class, cond: Cond)
  {
    k < |n.cls.fields| && n.cls.fields[k] == Field(name, Case(body, cond), Nested) &&
    NoLaterName(n.cls.fields, name, k + 1)
  }

  /**
   * A case table read by name is an instance of its body where the table
   * starts, with the enclosing instance as parent, when its condition holds,
   * and `None` when it does not.
   */
  lemma OwnCaseRead(env: Env, n: Node, k: nat, name: string, body: Class, cond: Cond, s: int, b: bool, fuel: nat)
    requires fuel >= 4 && CaseField(n, k, name, body, cond) && Holds(env, n, cond, fuel - 2) == Ok(b)
    requires b ==> Start(env, n, n.cls.fields, k, fuel - 2) == Ok(s)
    ensures Get(env, n, name, fuel) == if b then Ok(Child(Node(body, n.packet, s, Some(n)))) else Ok(NoneValue)
  {
    OwnField(n.cls, k);
    if b {
      CasePresent(env, n, name, body, cond, s, fuel);
    } else {
      CaseAbsent(env, n, name, body, cond, fuel);
    }
  }

  /** A case table whose condition fails measures nothing, so the next field starts where it does. */
  lemma AfterAbsentCase(env: Env, n: Node, k: nat, body: Class, cond: Cond, s: int, fuel: nat)
    requires fuel >= 2 && k < |n.cls.fields| && n.cls.fields[k].kind == Case(body, cond)
    requires Start(env, n, n.cls.fields, k, fuel) == Ok(s) && Holds(env, n, cond, fuel - 2) == Ok(false)
    ensures Start(env, n, n.cls.fields, k + 1, fuel) == Ok(s)
  {
    assert RealLength(env, n, n.cls.fields[k], fuel - 1) == Ok(0);
    StartNext(env, n, n.cls.fields, k, fuel);
  }

  /** A case table after fixed-width fields that end at bit `s`. */
  lemma OwnCaseAfterFixed(env: Env, n: Node, k: nat, name: string, body: Class, cond: Cond, s: int, b: bool, fuel: nat)
    requires fuel >= 4 && CaseField(n, k, name, body, cond) && Holds(env, n, cond, fuel - 2) == Ok(b)
    requires FixedPrefix(n.cls.fields, k) && s == n.pos + PrefixWidth(n.cls.fields, k)
    ensures Get(env, n, name, fuel) == if b then Ok(Child(Node(body, n.packet, s, Some(n)))) else Ok(NoneValue)
  {
    FixedPrefixStart(env, n, n.cls.fields, k, s, fuel - 2);
    OwnCaseRead(env, n, k, name, body, cond, s, b, fuel);
  }

  /**
   * A case table right after another case table that itself follows
   * fixed-width fields ending at bit `s`: when it is present the one before
   * it is absent, and it starts at bit `s` too.
   */
  lemma OwnCaseAfterAbsent(env: Env, n: Node, k: nat, name: string, body: Class, cond: Cond,
                           prev: Class, prevCond: Cond, s: int, b: bool, fuel: nat)
    requires fuel >= 6 && k > 0 && CaseField(n, k, name, body, cond) && Holds(env, n, cond, fuel - 2) == Ok(b)
    requires n.cls.fields[k - 1].kind == Case(prev, prevCond) && (b ==> Holds(env, n, prevCond, fuel - 4) == Ok(false))
    requires FixedPrefix(n.cls.fields, k - 1) && s == n.pos + PrefixWidth(n.cls.fields, k - 1)
    ensures Get(env, n, name, fuel) == if b then Ok(Child(Node(body, n.packet, s, Some(n)))) else Ok(NoneValue)
  {
    if b {
      FixedPrefixStart(env, n, n.cls.fields, k - 1, s, fuel - 2);
      AfterAbsentCase(env, n, k - 1, prev, prevCond, s, fuel - 2);
    }
    OwnCaseRead(env, n, k, name, body, cond, s, b, fuel);
  }

  /**
   * A length `lambda self: self.m - d1 if self.t == k else self.m - d2`,
   * in bytes, for integer attributes `t` and `m`.
   */
  lemma ChoiceLength(env: Env, n: Node, f: Field, t: string, k: int, m: string, d1: int, d2: int, x: int, c: int, fuel: nat)
    requires fuel >= 4 && !f.kind.Case? && !f.kind.CountLoop?
    requires f.length == Computed(IfThen(Equal(Attr(t), k), Minus(Attr(m), Lit(d1)), Minus(Attr(m), Lit(d2))))
    requires Get(env, n, t, fuel - 4) == Ok(Int(x)) && Get(env, n, m, fuel - 4) == Ok(Int(c))
    ensures RealLength(env, n, f, fuel) == Ok(8 * (if x == k then c - d1 else c - d2))
  {
    ChoiceEval(env, n, t, k, m, d1, d2, x, c, fuel - 1);
    ComputedLength(env, n, f, IfThen(Equal(Attr(t), k), Minus(Attr(m), Lit(d1)), Minus(Attr(m), Lit(d2))),
      if x == k then c - d1 else c - d2, fuel);
  }

  /** `self.m - d1 if self.t == k else self.m - d2`, for integer attributes `t` and `m`. */
  lemma ChoiceEval(env: Env, n: Node, t: string, k: int, m: string, d1: int, d2: int, x: int, c: int, fuel: nat)
    requires fuel >= 3 && Get(env, n, t, fuel - 3) == Ok(Int(x)) && Get(env, n, m, fuel - 3) == Ok(Int(c))
    ensures Eval(env, n, IfThen(Equal(Attr(t), k), Minus(Attr(m), Lit(d1)), Minus(Attr(m), Lit(d2))), fuel) ==
      Ok(Int(if x == k then c - d1 else c - d2))
  {
    EqualityConditions(env, n, t, k, x, fuel - 1);
    ChoiceValue(env, n, Equal(Attr(t), k), x == k, m, d1, d2, c, fuel);
  }

  /** `self.m - d1 if cond else self.m - d2`, once the condition is known. */
  lemma ChoiceValue(env: Env, n: Node, cond: Cond, b: bool, m: string, d1: int, d2: int, c: int, fuel: nat)
    requires fuel >= 3 && Holds(env, n, cond, fuel - 1) == Ok(b) && Get(env, n, m, fuel - 3) == Ok(Int(c))
    ensures Eval(env, n, IfThen(cond, Minus(Attr(m), Lit(d1)), Minus(Attr(m), Lit(d2))), fuel) == Ok(Int(if b then c - d1 else c - d2))
  {
    if b {
      MinusLiteral(env, n, m, d1, c, fuel - 1);
    } else {
      MinusLiteral(env, n, m, d2, c, fuel - 1);
    }
  }

  /** For a one-bit flag, testing it for truth and comparing it with 1 agree. */
  lemma FlagConditions(env: Env, n: Node, m: string, c: int, fuel: nat)
    requires fuel >= 3 && Get(env, n, m, fuel - 2) == Ok(Int(c)) && 0 <= c < 2
    ensures Holds(env, n, Truthy(Attr(m)), fuel) == Holds(env, n, Equal(Attr(m), 1), fuel)
    ensures Holds(env, n, Truthy(Attr(m)), fuel) == Ok(c == 1)
  {
    TruthyCondition(env, n, m, c, fuel);
    EqualityConditions(env, n, m, 1, c, fuel);
  }

  /**
   * `ChoiceLength` where the tested attribute is a bit field inside byte
   * `jt` and the measured attribute is the whole byte `jm`, both fixed-width
   * fields of the node's own class.
   */
  lemma OwnChoiceLength(env: Env, n: Node, f: Field, kt: nat, t: string, bt: nat, jt: nat, ot: nat,
                        km: nat, m: string, jm: nat, k: int, d1: int, d2: int, fuel: nat)
    requires fuel >= 8 && !f.kind.Case? && !f.kind.CountLoop?
    requires f.length == Computed(IfThen(Equal(Attr(t), k), Minus(Attr(m), Lit(d1)), Minus(Attr(m), Lit(d2))))
    requires ot + bt <= 8 && jt < |n.packet| && FixedField(n, kt, t, bt, 8 * jt + ot)
    requires jm < |n.packet| && FixedField(n, km, m, 8, 8 * jm)
    ensures RealLength(env, n, f, fuel) ==
      Ok(8 * (if Masked(n.packet[jt], 8 - ot, 8 - ot - bt) == k then n.packet[jm] as int - d1 else n.packet[jm] as int - d2))
  {
    OwnBitsInByteRead(env, n, kt, t, bt, 8 * jt + ot, jt, ot, fuel - 4);
    OwnByteRead(env, n, km, m, 8 * jm, jm, fuel - 4);
    ChoiceLength(env, n, f, t, k, m, d1, d2, Masked(n.packet[jt], 8 - ot, 8 - ot - bt), n.packet[jm] as int, fuel);
  }

  /** `FlagConditions` for a one-bit field of the node's own class at bit `o` of byte `j`. */
  lemma OwnFlagConditions(env: Env, n: Node, k: nat, t: string, j: nat, o: nat, fuel: nat)
    requires fuel >= 6 && o < 8 && j < |n.packet| && FixedField(n, k, t, 1, 8 * j + o)
    ensures Holds(env, n, Truthy(Attr(t)), fuel) == Holds(env, n, Equal(Attr(t), 1), fuel)
    ensures Holds(env, n, Truthy(Attr(t)), fuel) == Ok(Masked(n.packet[j], 8 - o, 7 - o) == 1)
  {
    var c := Masked(n.packet[j], 8 - o, 7 - o);
    OwnBitsInByteRead(env, n, k, t, 1, 8 * j + o, j, o, fuel - 2);
    MaskedBound(n.packet[j], 8 - o, 7 - o);
    assert Pow2(1) == 2;
    FlagConditions(env, n, t, c, fuel);
  }

  /** A length `lambda self: self.m - d`, where `m` is a 12-bit length field 4 bits into byte `jm`. */
  lemma OwnLow12MinusLength(env: Env, n: Node, km: nat, m: string, jm: nat, f: Field, d: int, fuel: nat)
    requires FixedField(n, km, m, 12, 8 * jm + 4) && jm + 1 < |n.packet|
    requires !f.kind.Case? && !f.kind.CountLoop? && f.length == Computed(Minus(Attr(m), Lit(d))) && fuel >= 7
    ensures RealLength(env, n, f, fuel) == Ok(8 * (Low12(n.packet, jm) - d))
  {
    OwnLow12Read(env, n, km, m, 8 * jm + 4, jm, fuel - 3);
    MinusLength(env, n, f, m, d, Low12(n.packet, jm), fuel);
  }

  /**
   * Field `k` is a loop of `w`-byte entries from bit `s` whose byte count is
   * `self.m - d`, where `m` is field `km`, a 12-bit length 4 bits into byte
   * `jm` (as `section_length`).
   */
  predicate Low12StrideField(n: Node, km: nat, m: string, jm: nat, k: nat, name: string, body: Class, s: int, w: nat, d: int)
  {
    FixedField(n, km, m, 12, 8 * jm + 4) && jm + 1 < |n.packet| &&
    StrideField(n, k, name, body, s, w) && n.cls.fields[k].length == Computed(Minus(Attr(m), Lit(d)))
  }

  /** Such a loop: one entry every `w` bytes from bit `s`, as many as start within its span. */
  lemma OwnLow12MinusStride(env: Env, n: Node, km: nat, m: string, jm: nat, k: nat, name: string, body: Class,
                            s: int, w: nat, d: int, fuel: nat)
    requires Low12StrideField(n, km, m, jm, k, name, body, s, w, d) && fuel >= 9 && fuel >= Low12(n.packet, jm) - d + 5
    ensures Get(env, n, name, fuel) == Ok(Children(Tiles(body, n.packet, s / 8, Strides(Low12(n.packet, jm) - d, w), w)))
  {
    OwnLow12MinusLength(env, n, km, m, jm, n.cls.fields[k], d, fuel - 2);
    OwnStrideLoopRead(env, n, k, name, body, s, Low12(n.packet, jm) - d, w, fuel);
  }

  /** A field `self.m - d` bytes long, where `m` is the byte at `jm` (as `descriptor_length`). */
  lemma OwnByteMinusLength(env: Env, n: Node, km: nat, m: string, jm: nat, f: Field, d: int, fuel: nat)
    requires FixedField(n, km, m, 8, 8 * jm) && jm < |n.packet|
    requires !f.kind.Case? && !f.kind.CountLoop? && f.length == Computed(Minus(Attr(m), Lit(d))) && fuel >= 7
    ensures RealLength(env, n, f, fuel) == Ok(8 * (n.packet[jm] as int - d))
  {
    OwnByteRead(env, n, km, m, 8 * jm, jm, fuel - 3);
    MinusLength(env, n, f, m, d, n.packet[jm] as int, fuel);
  }

  /** Field `k` is a loop of `w`-byte entries from bit `s` whose byte count is `self.m - d`, `m` the byte at `jm`. */
  predicate ByteStrideField(n: Node, km: nat, m: string, jm: nat, k: nat, name: string, body: Class, s: int, w: nat, d: int)
  {
    FixedField(n, km, m, 8, 8 * jm) && jm < |n.packet| &&
    StrideField(n, k, name, body, s, w) && n.cls.fields[k].length == Computed(Minus(Attr(m), Lit(d)))
  }

  /** Such a loop: one entry every `w` bytes from bit `s`, as many as start within its span. */
  lemma OwnByteMinusStride(env: Env, n: Node, km: nat, m: string, jm: nat, k: nat, name: string, body: Class,
                           s: int, w: nat, d: int, fuel: nat)
    requires ByteStrideField(n, km, m, jm, k, name, body, s, w, d) && fuel >= 9 && fuel >= n.packet[jm] as int - d + 5
    ensures Get(env, n, name, fuel) == Ok(Children(Tiles(body, n.packet, s / 8, Strides(n.packet[jm] as int - d, w), w)))
  {
    OwnByteMinusLength(env, n, km, m, jm, n.cls.fields[k], d, fuel - 2);
    OwnStrideLoopRead(env, n, k, name, body, s, n.packet[jm] as int - d, w, fuel);
  }
}
