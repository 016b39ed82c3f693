/**
 * The compiler.  `Compile` turns an expression and an optional schema into a compiled predicate, a
 * `Pred`, or fails with the first error it meets; `Eval` is the function the compiled predicate
 * computes.
 *
 * What the library builds as closures is here a syntax tree: every test holds its test value already
 * converted through the schema's type, and every combinator holds the predicates it compiled for its
 * nested expressions.  The recursive functions CompileExpr and CompileEntries state what compiling
 * means; the combinators re-enter CompileExpr.  The method Compile is the library's loop over the
 * expression's entries, proved to compute CompileExpr.
 */
module Compiler {
  import opened Wrappers
  import opened Errors
  import opened Values
  import opened Types
  import Operators

  // ----- schemas -----

  /**
   * A schema: its `type` (None when the property is absent), its `props` (the schema of each
   * property, consulted only when `type` is "object") and its `items` (the schema nested expressions
   * of `or`, `some`, `every` and `none` are compiled against).
   */
  datatype Schema = Schema(typ: Option<string>, props: Option<map<string, Schema>>, items: Option<Schema>)

  /** The default parameter `{ type: 'any' }`. */
  const AnySchema: Schema := Schema(Some("any"), None, None)

  /** A schema object without a `type` property. */
  const Untyped: Schema := Schema(None, None, None)

  /** The default parameter applies exactly when no schema (undefined) is passed. */
  function SchemaOrAny(schema: Option<Schema>): Schema
  {
    match schema
    case None => AnySchema
    case Some(s) => s
  }

  /** The schema `or`/`some`/`every`/`none` compile their nested expressions against: `schema.items`. */
  function ItemsSchema(schema: Schema): (s: Schema)
    ensures schema.items.Some? ==> s == schema.items.value
    ensures schema.items.None? ==> s == AnySchema
  {
    SchemaOrAny(schema.items)
  }

  /**
   * The schema a `props` entry compiles its key's expression against: the schema listed under that
   * key in the `props` of an object-typed schema.  For any other schema, or a key it does not list,
   * the lookup is undefined and so the default schema applies; a key of Object.prototype reads an
   * inherited member, which has no `type`.
   */
  function PropSchema(schema: Schema, key: string): (s: Schema)
    ensures schema.typ == Some("object") && schema.props.Some? && key in schema.props.value ==>
      s == schema.props.value[key]
    ensures !(schema.typ == Some("object") && schema.props.Some? && key in schema.props.value) ==>
      s == if key in PrototypeKeys then Untyped else AnySchema
    ensures key !in PrototypeKeys && (schema.props.None? || key !in schema.props.value) ==> s == AnySchema
  {
    if schema.typ == Some("object") && schema.props.Some? && key in schema.props.value then
      schema.props.value[key]
    else if key in PrototypeKeys then Untyped
    else AnySchema
  }

  // ----- compiled predicates -----

  /** A compiled expression: the schema type its candidates are converted with, and one test per entry. */
  datatype Pred = Pred(typ: Option<string>, tests: seq<Test>)

  /** One compiled entry; the leaf tests hold the converted test value. */
  datatype Test =
    | EqTest(operand: Value)
    | GtTest(operand: Value)
    | LtTest(operand: Value)
    | GteTest(operand: Value)
    | LteTest(operand: Value)
    | InTest(operand: Value)
    | PropsTest(fields: seq<PropTest>)
    | OrTest(alternatives: seq<Pred>)
    | SomeTest(sub: Pred)
    | EveryTest(sub: Pred)
    | NoneTest(sub: Pred)
  {
    /** The operator whose factory builds this test. */
    function Operator(): Operators.Operator
    {
      match this
      case EqTest(_) => Operators.Eq
      case GtTest(_) => Operators.Gt
      case LtTest(_) => Operators.Lt
      case GteTest(_) => Operators.Gte
      case LteTest(_) => Operators.Lte
      case InTest(_) => Operators.In
      case PropsTest(_) => Operators.Props
      case OrTest(_) => Operators.Or
      case SomeTest(_) => Operators.SomeOf
      case EveryTest(_) => Operators.EveryOf
      case NoneTest(_) => Operators.NoneOf
    }
  }

  /** The test a leaf operator's factory builds: it keeps the converted test value and nothing else. */
  function LeafTest(op: Operators.Operator, x: Value): (t: Test)
    requires !op.IsCombinator()
    ensures t.Operator() == op
  {
    if op == Operators.Eq then EqTest(x)
    else if op == Operators.Gt then GtTest(x)
    else if op == Operators.Lt then LtTest(x)
    else if op == Operators.Gte then GteTest(x)
    else if op == Operators.Lte then LteTest(x)
    else InTest(x)
  }

  /** The predicate `props` compiled for one property. */
  datatype PropTest = PropTest(key: string, pred: Pred)

  // ----- compilation -----

  /** Compiling an expression against a schema, once the schema argument has been defaulted. */
  function CompileExpr(expr: Value, schema: Schema): (r: Result<Pred, Fault>)
    decreases Size(expr), 0
    ensures !expr.Obj? ==> r == Err(Malformed)
    ensures r.Ok? ==> r.value.typ == schema.typ && |r.value.tests| == |expr.fields|
  {
    if !expr.Obj? then Err(Malformed)
    else
      match CompileEntries(expr.fields, schema)
      case Err(e) => Err(e)
      case Ok(tests) => Ok(Pred(schema.typ, tests))
  }

  /** The loop over the expression's own entries: one test per entry, in order, stopping at the first error. */
  function CompileEntries(entries: seq<Field>, schema: Schema): (r: Result<seq<Test>, Fault>)
    decreases FieldsSize(entries), 3
    ensures r.Ok? ==> |r.value| == |entries|
    ensures entries != [] && CompileEntry(entries[0], schema).Err? ==> r == Err(CompileEntry(entries[0], schema).error)
  {
    if entries == [] then Ok([])
    else
      match CompileEntry(entries[0], schema)
      case Err(e) => Err(e)
      case Ok(t) =>
        match CompileEntries(entries[1..], schema)
        case Err(e) => Err(e)
        case Ok(ts) => Ok([t] + ts)
  }

  /** One iteration of the loop: look the operator up, convert the test value, build the test. */
  function CompileEntry(entry: Field, schema: Schema): (r: Result<Test, Fault>)
    decreases Size(entry.val), 2
    ensures Operators.Lookup(entry.key).None? ==> r == Err(UnknownOperator(entry.key))
    ensures Operators.Lookup(entry.key).Some? && !KnownType(schema.typ) ==> r == Err(UnknownType(TypeLabel(schema.typ)))
    ensures r.Ok? ==> Operators.Lookup(entry.key) == Some(r.value.Operator())
  {
    match Operators.Lookup(entry.key)
    case None => Err(UnknownOperator(entry.key))
    case Some(op) =>
      match ConvertTo(entry.val, schema.typ)
      case Err(e) => Err(e)
      case Ok(test) => BuildTest(op, test, schema)
  }

  /** The operator factories, given the already converted test value and the schema. */
  function BuildTest(op: Operators.Operator, test: Value, schema: Schema): (r: Result<Test, Fault>)
    decreases Size(test), 1
    ensures r.Ok? ==> r.value.Operator() == op
    ensures !op.IsCombinator() ==> r == Ok(LeafTest(op, test))
    ensures op.Or? && !test.Arr? ==> r == Err(TypeError)
  {
    match op
    case Eq => Ok(EqTest(test))
    case Gt => Ok(GtTest(test))
    case Lt => Ok(LtTest(test))
    case Gte => Ok(GteTest(test))
    case Lte => Ok(LteTest(test))
    case In => Ok(InTest(test))
    case Props => PropsFn(test, schema)
    case Or =>
      (match test
       case Arr(items) =>
         (match CompileAll(items, ItemsSchema(schema))
          case Err(e) => Err(e)
          case Ok(ps) => Ok(OrTest(ps)))
       case _ => Err(TypeError))
    case SomeOf =>
      (match CompileExpr(test, ItemsSchema(schema))
       case Err(e) => Err(e)
       case Ok(p) => Ok(SomeTest(p)))
    case EveryOf =>
      (match CompileExpr(test, ItemsSchema(schema))
       case Err(e) => Err(e)
       case Ok(p) => Ok(EveryTest(p)))
    case NoneOf =>
      (match CompileExpr(test, ItemsSchema(schema))
       case Err(e) => Err(e)
       case Ok(p) => Ok(NoneTest(p)))
  }

  /**
   * The factory of `props`: compiles the sub-expression of each own entry of its test value against
   * that key's schema.  A string's entries are its one-character strings, which are not expressions,
   * so a non-empty string is malformed; numbers, booleans and NaN have no own entries, so they give a
   * `props` test without property tests.
   */
  function PropsFn(props: Value, schema: Schema): (r: Result<Test, Fault>)
    decreases Size(props), 0
    ensures r.Ok? ==> r.value.PropsTest?
    ensures props.Null? || props.Undef? ==> r == Err(TypeError)
    ensures props.Str? ==> r == if props.s == [] then Ok(PropsTest([])) else Err(Malformed)
    ensures props.Bool? || props.Num? || props.NaN? ==> r == Ok(PropsTest([]))
    ensures props.Obj? && r.Ok? ==>
      |r.value.fields| == |props.fields| &&
      forall i | 0 <= i < |props.fields| :: r.value.fields[i].key == props.fields[i].key
    ensures props.Arr? && r.Ok? ==>
      |r.value.fields| == |props.items| &&
      forall i | 0 <= i < |props.items| :: r.value.fields[i].key == NatToString(i)
  {
    match props
    case Null => Err(TypeError)
    case Undef => Err(TypeError)
    case Obj(fields) => MapPropTests(CompileProps(fields, schema))
    case Arr(items) => MapPropTests(CompileProps(IndexedFields(items, 0), schema))
    case Str(s) => if s == [] then Ok(PropsTest([])) else Err(Malformed)
    case _ => Ok(PropsTest([]))
  }

  function MapPropTests(r: Result<seq<PropTest>, Fault>): Result<Test, Fault>
  {
    match r
    case Err(e) => Err(e)
    case Ok(pts) => Ok(PropsTest(pts))
  }

  /** The sub-expression of each `props` entry, compiled against the schema its key selects, in entry order. */
  function CompileProps(fields: seq<Field>, schema: Schema): (r: Result<seq<PropTest>, Fault>)
    decreases FieldsSize(fields), 3
    ensures r.Ok? ==> |r.value| == |fields| && forall i | 0 <= i < |fields| :: r.value[i].key == fields[i].key
  {
    if fields == [] then Ok([])
    else
      match CompileExpr(fields[0].val, PropSchema(schema, fields[0].key))
      case Err(e) => Err(e)
      case Ok(p) =>
        match CompileProps(fields[1..], schema)
        case Err(e) => Err(e)
        case Ok(ps) => Ok([PropTest(fields[0].key, p)] + ps)
  }

  /** Every alternative of `or`, compiled against the given schema, in order; the first failure wins. */
  function CompileAll(exprs: seq<Value>, schema: Schema): (r: Result<seq<Pred>, Fault>)
    decreases ItemsSize(exprs), 3
    ensures r.Ok? ==> |r.value| == |exprs|
  {
    if exprs == [] then Ok([])
    else
      match CompileExpr(exprs[0], schema)
      case Err(e) => Err(e)
      case Ok(p) =>
        match CompileAll(exprs[1..], schema)
        case Err(e) => Err(e)
        case Ok(ps) => Ok([p] + ps)
  }

  /**
   * The library's entry point, whose schema defaults to the `any` type: rejects anything but a non-array object, then
   * walks the entries in order, throwing at the first bad one and collecting one test per entry.
   */
  method Compile(expression: Value, schema: Option<Schema>) returns (r: Result<Pred, Fault>)
    ensures r == CompileExpr(expression, SchemaOrAny(schema))
    ensures !expression.Obj? ==> r == Err(Malformed)
    ensures r.Ok? ==> r.value.typ == SchemaOrAny(schema).typ && |r.value.tests| == |expression.fields|
  {
    var s := SchemaOrAny(schema);
    if !expression.Obj? {
      return Err(Malformed);
    }
    var entries := expression.fields;
    var tests: seq<Test> := [];
    for i := 0 to |entries|
      invariant CompileEntries(entries[..i], s) == Ok(tests)
      invariant |tests| == i
    {
      var name, value := entries[i].key, entries[i].val;
      var fn := Operators.Lookup(name);
      if fn.None? {
        PrefixFault(entries, i, s);
        return Err(UnknownOperator(name));
      }
      var converted := ConvertTo(value, s.typ);
      if converted.Err? {
        PrefixFault(entries, i, s);
        return Err(converted.error);
      }
      var test := BuildTest(fn.value, converted.value, s);
      if test.Err? {
        PrefixFault(entries, i, s);
        return Err(test.error);
      }
      assert CompileEntry(entries[i], s) == test;
      PrefixStep(entries, i, s);
      tests := tests + [test.value];
    }
    assert entries[..|entries|] == entries;
    return Ok(Pred(s.typ, tests));
  }

  /** A test, or the first error, put in front of a list of tests, or of its error. */
  function Cons(head: Result<Test, Fault>, tail: Result<seq<Test>, Fault>): Result<seq<Test>, Fault>
  {
    match head
    case Err(e) => Err(e)
    case Ok(t) =>
      match tail
      case Err(e) => Err(e)
      case Ok(ts) => Ok([t] + ts)
  }

  /** Two lists of tests joined, or the first error. */
  function Concat(a: Result<seq<Test>, Fault>, b: Result<seq<Test>, Fault>): Result<seq<Test>, Fault>
  {
    match a
    case Err(e) => Err(e)
    case Ok(ts) =>
      match b
      case Err(e) => Err(e)
      case Ok(us) => Ok(ts + us)
  }

  lemma ConsConcat(head: Result<Test, Fault>, a: Result<seq<Test>, Fault>, b: Result<seq<Test>, Fault>)
    ensures Concat(Cons(head, a), b) == Cons(head, Concat(a, b))
  {
    if head.Ok? && a.Ok? && b.Ok? {
      assert [head.value] + (a.value + b.value) == ([head.value] + a.value) + b.value;
    }
  }

  /** Compiling a concatenation of entries compiles the first part, then the second. */
  lemma {:induction false} EntriesAppend(p: seq<Field>, q: seq<Field>, schema: Schema)
    ensures CompileEntries(p + q, schema) == Concat(CompileEntries(p, schema), CompileEntries(q, schema))
  {
    if p == [] {
      assert p + q == q;
      if CompileEntries(q, schema).Ok? {
        assert [] + CompileEntries(q, schema).value == CompileEntries(q, schema).value;
      }
    } else {
      var pq := p + q;
      assert pq != [] && pq[0] == p[0] && pq[1..] == p[1..] + q;
      EntriesAppend(p[1..], q, schema);
      assert CompileEntries(pq, schema) == Cons(CompileEntry(p[0], schema), CompileEntries(p[1..] + q, schema));
      assert CompileEntries(p, schema) == Cons(CompileEntry(p[0], schema), CompileEntries(p[1..], schema));
      ConsConcat(CompileEntry(p[0], schema), CompileEntries(p[1..], schema), CompileEntries(q, schema));
    }
  }

  /** When the entries before i compile and entry i fails, the whole loop fails with entry i's error. */
  lemma PrefixFault(entries: seq<Field>, i: nat, schema: Schema)
    requires i < |entries|
    requires CompileEntries(entries[..i], schema).Ok?
    requires CompileEntry(entries[i], schema).Err?
    ensures CompileEntries(entries, schema) == Err(CompileEntry(entries[i], schema).error)
  {
    EntriesAppend(entries[..i], entries[i..], schema);
    assert entries[..i] + entries[i..] == entries;
    assert entries[i..][0] == entries[i];
  }

  /** When the entries before i and entry i compile, the entries up to i + 1 compile to their tests extended by entry i's. */
  lemma PrefixStep(entries: seq<Field>, i: nat, schema: Schema)
    requires i < |entries|
    requires CompileEntries(entries[..i], schema).Ok?
    requires CompileEntry(entries[i], schema).Ok?
    ensures CompileEntries(entries[..i + 1], schema) ==
      Ok(CompileEntries(entries[..i], schema).value + [CompileEntry(entries[i], schema).value])
  {
    var t := CompileEntry(entries[i], schema).value;
    assert [entries[i]][0] == entries[i] && [entries[i]][1..] == [];
    assert CompileEntries([], schema) == Ok([]);
    assert [t] + [] == [t];
    assert CompileEntries([entries[i]], schema) == Ok([t]);
    EntriesAppend(entries[..i], [entries[i]], schema);
    assert entries[..i + 1] == entries[..i] + [entries[i]];
  }

  // ----- evaluation -----

  /**
   * The compiled predicate: converts the candidate with the schema's type, then requires every test
   * to hold of the converted value.
   * A candidate that cannot be converted raises the conversion's error.
   */
  function Eval(p: Pred, v: Value): (r: Result<bool, Fault>)
    decreases p, 0
    ensures !KnownType(p.typ) ==> r == Err(UnknownType(TypeLabel(p.typ)))
    ensures p.tests == [] && ConvertTo(v, p.typ).Ok? ==> r == Ok(true)
  {
    match ConvertTo(v, p.typ)
    case Err(e) => Err(e)
    case Ok(c) => EvalTests(p.tests, c)
  }

  /** Every test, applied in order to c: stops at the first test that is false or raises. */
  function EvalTests(tests: seq<Test>, c: Value): (r: Result<bool, Fault>)
    decreases tests, 0
    ensures tests == [] ==> r == Ok(true)
    ensures tests != [] && EvalTest(tests[0], c) == Ok(false) ==> r == Ok(false)
  {
    if tests == [] then Ok(true)
    else
      match EvalTest(tests[0], c)
      case Err(e) => Err(e)
      case Ok(false) => Ok(false)
      case Ok(true) => EvalTests(tests[1..], c)
  }

  /** The predicate one operator factory returns, applied to the converted candidate c. */
  function EvalTest(t: Test, c: Value): (r: Result<bool, Fault>)
    decreases t, 0
    ensures t.EqTest? ==> r == StrictEquals(c, t.operand)
    ensures (t.SomeTest? || t.EveryTest? || t.NoneTest?) && !c.Arr? ==> r == Err(TypeError)
  {
    match t
    case EqTest(x) => StrictEquals(c, x)
    case GtTest(x) => Relation(Compare(c, x), o => o == Greater)
    case LtTest(x) => Relation(Compare(c, x), o => o == Less)
    case GteTest(x) => Relation(Compare(c, x), o => o == Greater || o == Equal)
    case LteTest(x) => Relation(Compare(c, x), o => o == Less || o == Equal)
    case InTest(x) => InFn(x, c)
    case PropsTest(fields) => EvalProps(fields, c)
    case OrTest(ps) => EvalAny(ps, c)
    case SomeTest(q) => if c.Arr? then SomeElement(q, c.items) else Err(TypeError)
    case EveryTest(q) => if c.Arr? then EveryElement(q, c.items) else Err(TypeError)
    case NoneTest(q) => if c.Arr? then Negate(SomeElement(q, c.items)) else Err(TypeError)
  }

  function Relation(o: Result<Ordering, Fault>, holds: Ordering -> bool): Result<bool, Fault>
  {
    match o
    case Err(e) => Err(e)
    case Ok(ord) => Ok(holds(ord))
  }

  function Negate(r: Result<bool, Fault>): Result<bool, Fault>
  {
    match r
    case Err(e) => Err(e)
    case Ok(b) => Ok(!b)
  }

  /** The predicate of `in`: array membership, or substring search in a string test value. */
  function InFn(test: Value, c: Value): (r: Result<bool, Fault>)
    ensures test.Arr? && !IsContainer(c) ==> r == Ok(c in test.items)
    ensures test.Str? && c.Str? ==> r == Ok(Contains(test.s, c.s))
    ensures test.Str? && ToStr(c).Ok? ==> r == Ok(Contains(test.s, ToStr(c).value))
    ensures test.Str? && ToPrimitiveThrows(c) ==> r == Err(TypeError)
    ensures !test.Arr? && !test.Str? ==> r == Err(TypeError)
  {
    match test
    case Arr(items) => Includes(items, c)
    case Str(s) =>
      (match ToStr(c)
       case Err(e) => Err(e)
       case Ok(t) => Ok(Contains(s, t)))
    case _ => Err(TypeError)
  }

  /** The property tests of `props`, in order: each reads its key from the candidate and tests the value it finds. */
  function EvalProps(fields: seq<PropTest>, c: Value): (r: Result<bool, Fault>)
    decreases fields, 0
    ensures fields == [] ==> r == Ok(true)
    ensures fields != [] && (c.Null? || c.Undef?) ==> r == Err(TypeError)
  {
    if fields == [] then Ok(true)
    else
      match Property(c, fields[0].key)
      case Err(e) => Err(e)
      case Ok(x) =>
        match Eval(fields[0].pred, x)
        case Err(e) => Err(e)
        case Ok(false) => Ok(false)
        case Ok(true) => EvalProps(fields[1..], c)
  }

  /** The alternatives of `or`, in order: true at the first that holds, raising at the first that raises. */
  function EvalAny(ps: seq<Pred>, c: Value): (r: Result<bool, Fault>)
    decreases ps, 0
    ensures ps == [] ==> r == Ok(false)
    ensures ps != [] && Eval(ps[0], c) == Ok(true) ==> r == Ok(true)
  {
    if ps == [] then Ok(false)
    else
      match Eval(ps[0], c)
      case Err(e) => Err(e)
      case Ok(true) => Ok(true)
      case Ok(false) => EvalAny(ps[1..], c)
  }

  /** Whether some element satisfies q, scanning in order and stopping at the first that holds or raises. */
  function SomeElement(q: Pred, items: seq<Value>): (r: Result<bool, Fault>)
    decreases q, |items| + 1
    ensures items == [] ==> r == Ok(false)
    ensures items != [] && Eval(q, items[0]) == Ok(true) ==> r == Ok(true)
  {
    if items == [] then Ok(false)
    else
      match Eval(q, items[0])
      case Err(e) => Err(e)
      case Ok(true) => Ok(true)
      case Ok(false) => SomeElement(q, items[1..])
  }

  /** Whether every element satisfies q, scanning in order and stopping at the first that fails or raises. */
  function EveryElement(q: Pred, items: seq<Value>): (r: Result<bool, Fault>)
    decreases q, |items| + 1
    ensures items == [] ==> r == Ok(true)
    ensures items != [] && Eval(q, items[0]) == Ok(false) ==> r == Ok(false)
  {
    if items == [] then Ok(true)
    else
      match Eval(q, items[0])
      case Err(e) => Err(e)
      case Ok(false) => Ok(false)
      case Ok(true) => EveryElement(q, items[1..])
  }
}
