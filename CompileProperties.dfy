/**
 * What compiling an expression does: which error it ends with, and which tests it builds.
 */
module CompileProperties {
  import opened Wrappers
  import opened Errors
  import opened Values
  import opened Types
  import opened Operators
  import opened Compiler

  /** A registered type whose converter is the identity (every type but decimal). */
  predicate IdentityType(typ: Option<string>)
  {
    KnownType(typ) && typ != Some("decimal")
  }

  // ----- the loop over the entries -----

  /** The loop succeeds exactly when every entry compiles, and then builds entry j's test at position j. */
  lemma {:induction false} EntriesSucceedIff(entries: seq<Field>, schema: Schema)
    ensures CompileEntries(entries, schema).Ok? <==>
      forall j | 0 <= j < |entries| :: CompileEntry(entries[j], schema).Ok?
    ensures CompileEntries(entries, schema).Ok? ==>
      var tests := CompileEntries(entries, schema).value;
      |tests| == |entries| &&
      forall j | 0 <= j < |entries| :: tests[j] == CompileEntry(entries[j], schema).value
  {
    if entries != [] {
      EntriesSucceedIff(entries[1..], schema);
      assert forall j | 1 <= j < |entries| :: entries[1..][j - 1] == entries[j];
    }
  }

  /**
   * Entries are processed in order and the first entry that fails decides the error, whatever the
   * entries after it hold.
   */
  lemma FirstBadEntryDecides(entries: seq<Field>, i: nat, schema: Schema)
    requires i < |entries|
    requires forall j | 0 <= j < i :: CompileEntry(entries[j], schema).Ok?
    requires CompileEntry(entries[i], schema).Err?
    ensures CompileExpr(Obj(entries), schema) == Err(CompileEntry(entries[i], schema).error)
  {
    EntriesSucceedIff(entries[..i], schema);
    PrefixFault(entries, i, schema);
  }

  /** An expression compiles exactly when each of its entries does, to one test per entry, in order. */
  lemma CompileSucceedsIff(entries: seq<Field>, schema: Schema)
    ensures CompileExpr(Obj(entries), schema).Ok? <==>
      forall j | 0 <= j < |entries| :: CompileEntry(entries[j], schema).Ok?
    ensures CompileExpr(Obj(entries), schema).Ok? ==>
      var p := CompileExpr(Obj(entries), schema).value;
      p.typ == schema.typ && |p.tests| == |entries| &&
      forall j | 0 <= j < |entries| :: p.tests[j] == CompileEntry(entries[j], schema).value
  {
    EntriesSucceedIff(entries, schema);
  }

  // ----- the three library errors -----

  /** Anything but a non-array object is rejected before any entry is looked at. */
  lemma MalformedExpression(expr: Value, schema: Schema)
    requires !expr.Obj?
    ensures CompileExpr(expr, schema) == Err(Malformed)
    ensures CompileExpr(expr, schema).error.Message() == "expression should be an object"
  {
  }

  /**
   * The first entry whose name is not an operator makes compilation fail with "unknown operator",
   * whatever the schema: the operator is looked up before the test value is converted.
   */
  lemma UnknownOperatorReported(entries: seq<Field>, i: nat, schema: Schema)
    requires i < |entries|
    requires forall j | 0 <= j < i :: CompileEntry(entries[j], schema).Ok?
    requires Operators.Lookup(entries[i].key).None?
    ensures CompileExpr(Obj(entries), schema) == Err(UnknownOperator(entries[i].key))
    ensures CompileExpr(Obj(entries), schema).error.Message() == "unknown operator: " + entries[i].key
  {
    FirstBadEntryDecides(entries, i, schema);
  }

  /**
   * With an unregistered or missing schema type, a non-empty expression fails at its first entry:
   * with "unknown operator" when that entry's name is not an operator, else with "unknown type".
   */
  lemma UnknownTypeReported(entries: seq<Field>, schema: Schema)
    requires entries != []
    requires !KnownType(schema.typ)
    ensures CompileExpr(Obj(entries), schema) ==
      if Operators.Lookup(entries[0].key).None? then Err(UnknownOperator(entries[0].key))
      else Err(UnknownType(TypeLabel(schema.typ)))
    ensures Operators.Lookup(entries[0].key).Some? ==>
      CompileExpr(Obj(entries), schema).error.Message() == "unknown type: " + TypeLabel(schema.typ)
    ensures schema.typ.None? && Operators.Lookup(entries[0].key).Some? ==>
      CompileExpr(Obj(entries), schema).error.Message() == "unknown type: undefined"
  {
    FirstBadEntryDecides(entries, 0, schema);
  }

  /** A successfully compiled non-empty expression has a registered schema type. */
  lemma CompiledTypeIsKnown(entries: seq<Field>, schema: Schema)
    requires entries != []
    requires CompileExpr(Obj(entries), schema).Ok?
    ensures KnownType(schema.typ)
  {
    CompileSucceedsIff(entries, schema);
    assert CompileEntry(entries[0], schema).Ok?;
  }

  // ----- single entries -----

  /** The factory of op applied to the converted test value x, as a one-test predicate. */
  function FactoryResult(op: Operator, x: Value, schema: Schema): Result<Pred, Fault>
  {
    match ConvertTo(x, schema.typ)
    case Err(e) => Err(e)
    case Ok(t) =>
      match BuildTest(op, t, schema)
      case Err(e) => Err(e)
      case Ok(test) => Ok(Pred(schema.typ, [test]))
  }

  /** A one-entry expression compiles to the test its operator's factory builds from the converted test value. */
  lemma SingleEntry(op: Operator, x: Value, schema: Schema)
    ensures CompileExpr(Obj([Field(op.Name(), x)]), schema) == FactoryResult(op, x, schema)
  {
    LookupName(op);
    var fs := [Field(op.Name(), x)];
    assert fs[0] == Field(op.Name(), x) && fs[1..] == [];
    assert CompileEntries(fs[1..], schema) == Ok([]);
    var entry := CompileEntry(fs[0], schema);
    assert CompileEntries(fs, schema) == Cons(entry, Ok([]));
    match ConvertTo(x, schema.typ)
    case Err(_) =>
    case Ok(t) =>
      assert entry == BuildTest(op, t, schema);
      match BuildTest(op, t, schema)
      case Err(_) =>
      case Ok(test) => assert [test] + [] == [test];
  }

  // ----- nested expressions -----

  lemma {:induction false} CompileAllSucceedsIff(exprs: seq<Value>, schema: Schema)
    ensures CompileAll(exprs, schema).Ok? <==>
      forall j | 0 <= j < |exprs| :: CompileExpr(exprs[j], schema).Ok?
    ensures CompileAll(exprs, schema).Ok? ==>
      var ps := CompileAll(exprs, schema).value;
      |ps| == |exprs| && forall j | 0 <= j < |exprs| :: ps[j] == CompileExpr(exprs[j], schema).value
  {
    if exprs != [] {
      CompileAllSucceedsIff(exprs[1..], schema);
      assert forall j | 1 <= j < |exprs| :: exprs[1..][j - 1] == exprs[j];
    }
  }

  lemma {:induction false} CompileAllFirstFault(exprs: seq<Value>, i: nat, schema: Schema)
    requires i < |exprs|
    requires forall j | 0 <= j < i :: CompileExpr(exprs[j], schema).Ok?
    requires CompileExpr(exprs[i], schema).Err?
    ensures CompileAll(exprs, schema) == Err(CompileExpr(exprs[i], schema).error)
  {
    var head := CompileExpr(exprs[0], schema);
    if i > 0 {
      assert forall j | 0 <= j < i - 1 :: exprs[1..][j] == exprs[j + 1];
      CompileAllFirstFault(exprs[1..], i - 1, schema);
      assert exprs[1..][i - 1] == exprs[i];
      assert head.Ok?;
      assert CompileAll(exprs, schema) == Err(CompileAll(exprs[1..], schema).error);
    } else {
      assert CompileAll(exprs, schema) == Err(head.error);
    }
  }

  lemma {:induction false} CompilePropsSucceedsIff(fields: seq<Field>, schema: Schema)
    ensures CompileProps(fields, schema).Ok? <==>
      forall j | 0 <= j < |fields| :: CompileExpr(fields[j].val, PropSchema(schema, fields[j].key)).Ok?
    ensures CompileProps(fields, schema).Ok? ==>
      var pts := CompileProps(fields, schema).value;
      |pts| == |fields| &&
      forall j | 0 <= j < |fields| ::
        pts[j] == PropTest(fields[j].key, CompileExpr(fields[j].val, PropSchema(schema, fields[j].key)).value)
  {
    if fields != [] {
      CompilePropsSucceedsIff(fields[1..], schema);
      assert forall j | 1 <= j < |fields| :: fields[1..][j - 1] == fields[j];
      var head := CompileExpr(fields[0].val, PropSchema(schema, fields[0].key));
      var tail := CompileProps(fields[1..], schema);
      if head.Err? {
        assert CompileProps(fields, schema) == Err(head.error);
      } else if tail.Err? {
        assert CompileProps(fields, schema) == Err(tail.error);
        assert !CompileExpr(fields[1..][0].val, PropSchema(schema, fields[1..][0].key)).Ok? ||
          exists j | 0 <= j < |fields[1..]| :: !CompileExpr(fields[1..][j].val, PropSchema(schema, fields[1..][j].key)).Ok?;
      } else {
        assert CompileProps(fields, schema) == Ok([PropTest(fields[0].key, head.value)] + tail.value);
      }
    }
  }

  lemma {:induction false} CompilePropsFirstFault(fields: seq<Field>, i: nat, schema: Schema)
    requires i < |fields|
    requires forall j | 0 <= j < i :: CompileExpr(fields[j].val, PropSchema(schema, fields[j].key)).Ok?
    requires CompileExpr(fields[i].val, PropSchema(schema, fields[i].key)).Err?
    ensures CompileProps(fields, schema) == Err(CompileExpr(fields[i].val, PropSchema(schema, fields[i].key)).error)
  {
    var head := CompileExpr(fields[0].val, PropSchema(schema, fields[0].key));
    if i > 0 {
      assert forall j | 0 <= j < i - 1 :: fields[1..][j] == fields[j + 1];
      CompilePropsFirstFault(fields[1..], i - 1, schema);
      assert fields[1..][i - 1] == fields[i];
      assert head.Ok?;
      assert CompileProps(fields, schema) == Err(CompileProps(fields[1..], schema).error);
    } else {
      assert CompileProps(fields, schema) == Err(head.error);
    }
  }

  /**
   * `some`, `every` and `none` compile their sub-expression against `schema.items` eagerly: an error
   * in it is the error of the whole expression.
   */
  lemma QuantifierSubExpressionFault(op: Operator, sub: Value, schema: Schema)
    requires op == SomeOf || op == EveryOf || op == NoneOf
    requires IdentityType(schema.typ)
    requires CompileExpr(sub, ItemsSchema(schema)).Err?
    ensures CompileExpr(Obj([Field(op.Name(), sub)]), schema) == CompileExpr(sub, ItemsSchema(schema))
  {
    SingleEntry(op, sub, schema);
  }

  /** The test a quantifier operator builds around its compiled sub-expression. */
  function QuantifierTest(op: Operator, q: Pred): Test
  {
    if op == SomeOf then SomeTest(q) else if op == EveryOf then EveryTest(q) else NoneTest(q)
  }

  /**
   * `some`, `every` and `none` compile exactly when their sub-expression compiles against
   * `schema.items`, to the one test wrapping it.
   */
  lemma QuantifierCompiles(op: Operator, sub: Value, schema: Schema)
    requires op == SomeOf || op == EveryOf || op == NoneOf
    requires IdentityType(schema.typ)
    ensures CompileExpr(Obj([Field(op.Name(), sub)]), schema).Ok? <==> CompileExpr(sub, ItemsSchema(schema)).Ok?
    ensures CompileExpr(sub, ItemsSchema(schema)).Ok? ==>
      CompileExpr(Obj([Field(op.Name(), sub)]), schema).value ==
      Pred(schema.typ, [QuantifierTest(op, CompileExpr(sub, ItemsSchema(schema)).value)])
  {
    SingleEntry(op, sub, schema);
    assert ConvertTo(sub, schema.typ) == Ok(sub);
  }

  /** `or` compiles every alternative against `schema.items` eagerly; the first that fails decides the error. */
  lemma OrAlternativeFault(alternatives: seq<Value>, i: nat, schema: Schema)
    requires i < |alternatives|
    requires IdentityType(schema.typ)
    requires forall j | 0 <= j < i :: CompileExpr(alternatives[j], ItemsSchema(schema)).Ok?
    requires CompileExpr(alternatives[i], ItemsSchema(schema)).Err?
    ensures CompileExpr(Obj([Field("or", Arr(alternatives))]), schema) ==
      CompileExpr(alternatives[i], ItemsSchema(schema))
  {
    SingleEntry(Or, Arr(alternatives), schema);
    CompileAllFirstFault(alternatives, i, ItemsSchema(schema));
  }

  /** `props` compiles each property's sub-expression against its schema eagerly; the first that fails decides. */
  lemma PropsSubExpressionFault(fields: seq<Field>, i: nat, schema: Schema)
    requires i < |fields|
    requires IdentityType(schema.typ)
    requires forall j | 0 <= j < i :: CompileExpr(fields[j].val, PropSchema(schema, fields[j].key)).Ok?
    requires CompileExpr(fields[i].val, PropSchema(schema, fields[i].key)).Err?
    ensures CompileExpr(Obj([Field("props", Obj(fields))]), schema) ==
      CompileExpr(fields[i].val, PropSchema(schema, fields[i].key))
  {
    CompilePropsFirstFault(fields, i, schema);
    PropsFactoryFault(fields, schema);
    SingleEntry(Props, Obj(fields), schema);
  }

  /** Under an identity type, a failing `props` operand's error is the error of its factory. */
  lemma PropsFactoryFault(fields: seq<Field>, schema: Schema)
    requires IdentityType(schema.typ)
    requires CompileProps(fields, schema).Err?
    ensures FactoryResult(Props, Obj(fields), schema) == Err(CompileProps(fields, schema).error)
  {
    assert ConvertTo(Obj(fields), schema.typ) == Ok(Obj(fields));
    assert BuildTest(Props, Obj(fields), schema) == MapPropTests(CompileProps(fields, schema));
  }

  /** The unknown-operator test, with its expression nested under `props`, fails at compile time. */
  lemma NestedUnknownOperatorExample()
    ensures CompileExpr(Obj([Field("props", Obj([Field("foo", Obj([Field("unknown_operator", Str("Joe"))]))]))]), AnySchema)
      == Err(UnknownOperator("unknown_operator"))
  {
    var inner := Obj([Field("unknown_operator", Str("Joe"))]);
    UnknownOperatorReported(inner.fields, 0, AnySchema);
    PropsSubExpressionFault([Field("foo", inner)], 0, AnySchema);
  }

  // ----- schemas threaded down -----

  lemma {:induction false} CompilePropsSameSchemas(fields: seq<Field>, s1: Schema, s2: Schema)
    requires forall k: string :: PropSchema(s1, k) == PropSchema(s2, k)
    ensures CompileProps(fields, s1) == CompileProps(fields, s2)
  {
    if fields != [] {
      CompilePropsSameSchemas(fields[1..], s1, s2);
    }
  }

  /** A schema's `props` only matter when its type is "object": otherwise `props` compiles as without them. */
  lemma PropsSchemasOnlyForObjects(x: Value, schema: Schema)
    requires schema.typ != Some("object")
    ensures CompileExpr(Obj([Field("props", x)]), schema) ==
      CompileExpr(Obj([Field("props", x)]), schema.(props := None))
  {
    var s2 := schema.(props := None);
    assert forall k: string :: PropSchema(schema, k) == PropSchema(s2, k);
    if KnownType(schema.typ) {
      SingleEntry(Props, x, schema);
      SingleEntry(Props, x, s2);
      match ConvertTo(x, schema.typ)
      case Err(_) =>
      case Ok(t) =>
        match t {
          case Obj(fields) => CompilePropsSameSchemas(fields, schema, s2);
          case Arr(items) => CompilePropsSameSchemas(IndexedFields(items, 0), schema, s2);
          case _ =>
        }
        assert PropsFn(t, schema) == PropsFn(t, s2);
    } else {
      UnknownTypeReported([Field("props", x)], schema);
      UnknownTypeReported([Field("props", x)], s2);
    }
  }

  const DecimalSchema: Schema := Schema(Some("decimal"), None, None)

  /**
   * The test value of every entry goes through the schema's converter, combinators included: under a
   * decimal schema an object becomes NaN, so `some`/`every`/`none` reject it as not an expression;
   * an object with an own `toString` key cannot even be converted.
   */
  lemma DecimalQuantifierOperand(fields: seq<Field>, op: Operator)
    requires op == SomeOf || op == EveryOf || op == NoneOf
    ensures CompileExpr(Obj([Field(op.Name(), Obj(fields))]), DecimalSchema) ==
      if "toString" in Keys(fields) then Err(TypeError) else Err(Malformed)
  {
    SingleEntry(op, Obj(fields), DecimalSchema);
    assert ConvertTo(Obj(fields), DecimalSchema.typ) == if "toString" in Keys(fields) then Err(TypeError) else Ok(NaN);
  }

  /** Under a decimal schema the object of `props` becomes NaN, which has no entries to test. */
  lemma DecimalPropsOperand(fields: seq<Field>)
    ensures CompileExpr(Obj([Field("props", Obj(fields))]), DecimalSchema) ==
      if "toString" in Keys(fields) then Err(TypeError) else Ok(Pred(Some("decimal"), [PropsTest([])]))
  {
    assert Props.Name() == "props";
    SingleEntry(Props, Obj(fields), DecimalSchema);
    assert ConvertTo(Obj(fields), DecimalSchema.typ) == if "toString" in Keys(fields) then Err(TypeError) else Ok(NaN);
  }

  /**
   * Under a decimal schema the array of `or` goes through parseFloat too: the empty array becomes
   * NaN, which cannot be mapped over; an array holding an object with an own `toString` cannot be
   * converted; and the number other arrays would parse to is not modelled.
   */
  lemma DecimalOrOperand(items: seq<Value>)
    ensures CompileExpr(Obj([Field("or", Arr(items))]), DecimalSchema) ==
      if items == [] || ToPrimitiveThrows(Arr(items)) then Err(TypeError) else Err(Unsupported)
  {
    assert Or.Name() == "or";
    SingleEntry(Or, Arr(items), DecimalSchema);
    if items == [] {
      assert ConvertTo(Arr(items), DecimalSchema.typ) == Ok(NaN);
    } else {
      assert ConvertTo(Arr(items), DecimalSchema.typ) ==
        if ToPrimitiveThrows(Arr(items)) then Err(TypeError) else Err(Unsupported);
    }
  }
}
