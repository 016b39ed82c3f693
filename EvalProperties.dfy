/**
 * What a compiled predicate computes: a conjunction of its tests over the converted candidate,
 * the meaning of each leaf operator, and the meaning of the combinators.
 */
module EvalProperties {
  import opened Wrappers
  import opened Errors
  import opened Values
  import opened Types
  import opened Operators
  import opened Compiler
  import opened CompileProperties
  import Numerals

  // ----- conjunction of the entries -----

  /** `every` over the tests: true iff every test is true; false iff some test is false after only true ones. */
  lemma EvalTestsIff(tests: seq<Test>, c: Value)
    ensures EvalTests(tests, c) == Ok(true) <==>
      forall i | 0 <= i < |tests| :: EvalTest(tests[i], c) == Ok(true)
    ensures EvalTests(tests, c) == Ok(false) <==>
      exists i | 0 <= i < |tests| ::
        EvalTest(tests[i], c) == Ok(false) && forall j | 0 <= j < i :: EvalTest(tests[j], c) == Ok(true)
  {
    EvalTestsTrueIff(tests, c);
    EvalTestsFalseIff(tests, c);
  }

  lemma {:induction false} EvalTestsTrueIff(tests: seq<Test>, c: Value)
    ensures EvalTests(tests, c) == Ok(true) <==>
      forall i | 0 <= i < |tests| :: EvalTest(tests[i], c) == Ok(true)
  {
    if tests != [] {
      EvalTestsTrueIff(tests[1..], c);
      assert forall j | 1 <= j < |tests| :: tests[1..][j - 1] == tests[j];
    }
  }

  lemma EvalTestsFalseIff(tests: seq<Test>, c: Value)
    ensures EvalTests(tests, c) == Ok(false) <==>
      exists i | 0 <= i < |tests| ::
        EvalTest(tests[i], c) == Ok(false) && forall j | 0 <= j < i :: EvalTest(tests[j], c) == Ok(true)
  {
    if EvalTests(tests, c) == Ok(false) {
      var i := FirstFalseTest(tests, c);
    }
    if exists i | 0 <= i < |tests| ::
        EvalTest(tests[i], c) == Ok(false) && forall j | 0 <= j < i :: EvalTest(tests[j], c) == Ok(true) {
      var i :| 0 <= i < |tests| && EvalTest(tests[i], c) == Ok(false) &&
        forall j | 0 <= j < i :: EvalTest(tests[j], c) == Ok(true);
      FalseAfterTrueTests(tests, i, c);
    }
  }

  /** When the tests are false, some test is false after only true ones. */
  lemma {:induction false} FirstFalseTest(tests: seq<Test>, c: Value) returns (i: nat)
    requires EvalTests(tests, c) == Ok(false)
    ensures i < |tests| && EvalTest(tests[i], c) == Ok(false)
    ensures forall j | 0 <= j < i :: EvalTest(tests[j], c) == Ok(true)
  {
    if EvalTest(tests[0], c) == Ok(false) {
      i := 0;
    } else {
      assert EvalTest(tests[0], c) == Ok(true);
      var rest := tests[1..];
      assert EvalTests(tests, c) == EvalTests(rest, c);
      var k := FirstFalseTest(rest, c);
      i := k + 1;
      assert tests[i] == rest[k];
      assert forall j | 1 <= j < i :: tests[j] == rest[j - 1];
    }
  }

  /** A false test after only true ones makes the tests false. */
  lemma {:induction false} FalseAfterTrueTests(tests: seq<Test>, i: nat, c: Value)
    requires i < |tests| && EvalTest(tests[i], c) == Ok(false)
    requires forall j | 0 <= j < i :: EvalTest(tests[j], c) == Ok(true)
    ensures EvalTests(tests, c) == Ok(false)
  {
    if i > 0 {
      var rest := tests[1..];
      assert EvalTest(tests[0], c) == Ok(true);
      assert EvalTests(tests, c) == EvalTests(rest, c);
      assert rest[i - 1] == tests[i];
      assert forall j | 0 <= j < i - 1 :: rest[j] == tests[j + 1];
      FalseAfterTrueTests(rest, i - 1, c);
    }
  }

  /** The tests of two lists run one list after the other. */
  lemma {:induction false} EvalTestsAppend(t1: seq<Test>, t2: seq<Test>, c: Value)
    ensures EvalTests(t1 + t2, c) == if EvalTests(t1, c) == Ok(true) then EvalTests(t2, c) else EvalTests(t1, c)
  {
    if t1 == [] {
      assert t1 + t2 == t2;
    } else {
      assert (t1 + t2)[0] == t1[0] && (t1 + t2)[1..] == t1[1..] + t2;
      EvalTestsAppend(t1[1..], t2, c);
    }
  }

  /**
   * The compiled predicate converts the candidate with the schema's type and holds iff every
   * per-entry test holds on the converted candidate.
   */
  lemma EvalIsConjunction(p: Pred, v: Value)
    ensures Eval(p, v) == Ok(true) <==>
      ConvertTo(v, p.typ).Ok? &&
      forall i | 0 <= i < |p.tests| :: EvalTest(p.tests[i], ConvertTo(v, p.typ).value) == Ok(true)
  {
    if ConvertTo(v, p.typ).Ok? {
      EvalTestsIff(p.tests, ConvertTo(v, p.typ).value);
    }
  }

  /**
   * The predicate an expression compiles to is the conjunction of the predicates its two halves
   * compile to: adding entries can only turn true into false, and false stays false.
   */
  lemma MoreEntriesNarrow(e1: seq<Field>, e2: seq<Field>, schema: Schema, v: Value)
    requires CompileExpr(Obj(e1 + e2), schema).Ok?
    ensures CompileExpr(Obj(e1), schema).Ok? && CompileExpr(Obj(e2), schema).Ok?
    ensures var p := CompileExpr(Obj(e1 + e2), schema).value;
      var p1 := CompileExpr(Obj(e1), schema).value;
      var p2 := CompileExpr(Obj(e2), schema).value;
      && (Eval(p, v) == Ok(true) <==> Eval(p1, v) == Ok(true) && Eval(p2, v) == Ok(true))
      && (Eval(p1, v) == Ok(false) ==> Eval(p, v) == Ok(false))
  {
    EntriesAppend(e1, e2, schema);
    var t1 := CompileEntries(e1, schema).value;
    var t2 := CompileEntries(e2, schema).value;
    assert CompileExpr(Obj(e1 + e2), schema).value.tests == t1 + t2;
    if ConvertTo(v, schema.typ).Ok? {
      EvalTestsAppend(t1, t2, ConvertTo(v, schema.typ).value);
    }
  }

  /**
   * An expression with no entries compiles under every schema.  With a registered type its predicate
   * is true of every candidate the converter accepts, null included; with an unknown or missing type
   * the "unknown type" error comes only when the predicate is evaluated.
   */
  lemma EmptyExpression(schema: Schema, v: Value)
    ensures CompileExpr(Obj([]), schema) == Ok(Pred(schema.typ, []))
    ensures KnownType(schema.typ) && ConvertTo(v, schema.typ).Ok? ==> Eval(Pred(schema.typ, []), v) == Ok(true)
    ensures KnownType(schema.typ) ==> Eval(Pred(schema.typ, []), Null) == Ok(true)
    ensures !KnownType(schema.typ) ==> Eval(Pred(schema.typ, []), v) == Err(UnknownType(TypeLabel(schema.typ)))
  {
  }

  /** Under an identity type, a one-test predicate is that test applied to the candidate itself. */
  lemma SingleTestEval(typ: Option<string>, t: Test, v: Value)
    requires IdentityType(typ)
    ensures Eval(Pred(typ, [t]), v) == EvalTest(t, v)
  {
    assert ConvertTo(v, typ) == Ok(v);
    assert [t][0] == t && [t][1..] == [];
    assert EvalTests([t][1..], v) == Ok(true);
  }

  // ----- leaf operators -----

  /**
   * What the predicate of each leaf operator says of a converted candidate c and the converted test
   * value x: `===` for `eq`, the abstract relational comparison for `gt`, `lt`, `gte` and `lte`, and
   * `includes` for `in`.
   */
  function LeafMeaning(op: Operator, x: Value, c: Value): Result<bool, Fault>
    requires !op.IsCombinator()
  {
    if op == Eq then StrictEquals(c, x)
    else if op == In then InFn(x, c)
    else
      match Compare(c, x)
      case Err(e) => Err(e)
      case Ok(o) =>
        Ok(if op == Gt then o == Greater
           else if op == Lt then o == Less
           else if op == Gte then o == Greater || o == Equal
           else o == Less || o == Equal)
  }

  /** A leaf test evaluates to its operator's meaning. */
  lemma LeafTestMeaning(op: Operator, x: Value, c: Value)
    requires !op.IsCombinator()
    ensures EvalTest(LeafTest(op, x), c) == LeafMeaning(op, x, c)
  {
  }

  /**
   * A leaf operator compiles to one test holding its test value converted once, at compile time;
   * the predicate converts the candidate the same way and compares the two as the operator says.
   */
  lemma LeafOperatorMeaning(op: Operator, x: Value, v: Value, schema: Schema)
    requires !op.IsCombinator()
    requires ConvertTo(x, schema.typ).Ok?
    ensures CompileExpr(Obj([Field(op.Name(), x)]), schema) ==
      Ok(Pred(schema.typ, [LeafTest(op, ConvertTo(x, schema.typ).value)]))
    ensures ConvertTo(v, schema.typ).Err? ==>
      Eval(CompileExpr(Obj([Field(op.Name(), x)]), schema).value, v) == Err(ConvertTo(v, schema.typ).error)
    ensures ConvertTo(v, schema.typ).Ok? ==>
      Eval(CompileExpr(Obj([Field(op.Name(), x)]), schema).value, v) ==
      LeafMeaning(op, ConvertTo(x, schema.typ).value, ConvertTo(v, schema.typ).value)
  {
    var t := ConvertTo(x, schema.typ).value;
    LeafCompiles(op, x, schema);
    OneTestEval(schema.typ, LeafTest(op, t), v);
    match ConvertTo(v, schema.typ)
    case Err(_) =>
    case Ok(c) => LeafTestMeaning(op, t, c);
  }

  lemma LeafCompiles(op: Operator, x: Value, schema: Schema)
    requires !op.IsCombinator()
    requires ConvertTo(x, schema.typ).Ok?
    ensures CompileExpr(Obj([Field(op.Name(), x)]), schema) ==
      Ok(Pred(schema.typ, [LeafTest(op, ConvertTo(x, schema.typ).value)]))
  {
    SingleEntry(op, x, schema);
  }

  /** A one-test predicate converts the candidate and applies its test to the result. */
  lemma OneTestEval(typ: Option<string>, t: Test, v: Value)
    ensures ConvertTo(v, typ).Err? ==> Eval(Pred(typ, [t]), v) == Err(ConvertTo(v, typ).error)
    ensures ConvertTo(v, typ).Ok? ==> Eval(Pred(typ, [t]), v) == EvalTest(t, ConvertTo(v, typ).value)
  {
    match ConvertTo(v, typ)
    case Err(_) =>
    case Ok(c) =>
      assert [t][0] == t && [t][1..] == [];
      assert EvalTests([t][1..], c) == Ok(true);
  }

  /**
   * The four ordering operators raise exactly when the comparison is refused, and otherwise hold
   * for the outcomes of the abstract relational comparison they name.
   */
  lemma ComparisonTests(x: Value, c: Value)
    ensures EvalTest(GtTest(x), c).Ok? == Compare(c, x).Ok? && EvalTest(LtTest(x), c).Ok? == Compare(c, x).Ok?
    ensures EvalTest(GteTest(x), c).Ok? == Compare(c, x).Ok? && EvalTest(LteTest(x), c).Ok? == Compare(c, x).Ok?
    ensures EvalTest(GtTest(x), c) == Ok(true) <==> Compare(c, x) == Ok(Greater)
    ensures EvalTest(LtTest(x), c) == Ok(true) <==> Compare(c, x) == Ok(Less)
    ensures EvalTest(GteTest(x), c) == Ok(true) <==> Compare(c, x) == Ok(Greater) || Compare(c, x) == Ok(Equal)
    ensures EvalTest(LteTest(x), c) == Ok(true) <==> Compare(c, x) == Ok(Less) || Compare(c, x) == Ok(Equal)
  {
  }

  /** Two values of the same primitive kind, which JavaScript compares without converting either. */
  predicate SameKind(c: Value, x: Value)
  {
    (c.Num? && x.Num?) || (c.Str? && x.Str?) || (c.Bool? && x.Bool?) || (c.Null? && x.Null?)
  }

  /**
   * `gte` is `gt` or `eq`, and `lte` is `lt` or `eq`, wherever the operands can be compared without
   * converting one kind into another (see MixedKindInclusive for what happens otherwise).  Both
   * operands undefined is the exception: `undefined >= undefined` is false, `undefined === undefined`
   * is true.
   */
  lemma InclusiveComparisons(c: Value, x: Value)
    requires !(c.Undef? && x.Undef?)
    requires Compare(c, x).Ok?
    requires c.Undef? || x.Undef? || c.NaN? || x.NaN? || SameKind(c, x)
    ensures StrictEquals(c, x).Ok?
    ensures EvalTest(GteTest(x), c) == Ok(EvalTest(GtTest(x), c) == Ok(true) || StrictEquals(c, x) == Ok(true))
    ensures EvalTest(LteTest(x), c) == Ok(EvalTest(LtTest(x), c) == Ok(true) || StrictEquals(c, x) == Ok(true))
  {
    if c.Undef? || x.Undef? || c.NaN? || x.NaN? {
      assert Compare(c, x) == Ok(Unordered);
      assert StrictEquals(c, x) == Ok(false);
    } else if c.Str? {
      StrLessIrreflexive(c.s);
    }
  }

  /** The case InclusiveComparisons leaves out: `undefined >= undefined` is false, yet `undefined === undefined`. */
  lemma BothUndefinedInclusive()
    ensures StrictEquals(Undef, Undef) == Ok(true)
    ensures EvalTest(GteTest(Undef), Undef) == Ok(false) && EvalTest(GtTest(Undef), Undef) == Ok(false)
    ensures EvalTest(LteTest(Undef), Undef) == Ok(false) && EvalTest(LtTest(Undef), Undef) == Ok(false)
  {
  }

  /**
   * `>=` converts null and booleans to numbers but `===` does not: `null >= false` holds while
   * neither `null > false` nor `null === false` does, and likewise `1 >= true`.
   */
  lemma MixedKindInclusive()
    ensures EvalTest(GteTest(Bool(false)), Null) == Ok(true)
    ensures EvalTest(GtTest(Bool(false)), Null) == Ok(false) && StrictEquals(Null, Bool(false)) == Ok(false)
    ensures EvalTest(GteTest(Bool(true)), Num(1.0)) == Ok(true)
    ensures EvalTest(GtTest(Bool(true)), Num(1.0)) == Ok(false) && StrictEquals(Num(1.0), Bool(true)) == Ok(false)
  {
  }

  /**
   * Numbers are ordered by value, strings lexicographically, and booleans and null through their
   * numeric forms: exactly one of `gt`, `lt` and `eq` holds, and `gt` with the operands swapped is `lt`.
   */
  lemma OrderingIsTotal(c: Value, x: Value)
    requires SameKind(c, x)
    ensures EvalTest(GtTest(x), c).Ok? && EvalTest(LtTest(x), c).Ok? && StrictEquals(c, x).Ok?
    ensures var gt, lt, eq := EvalTest(GtTest(x), c).value, EvalTest(LtTest(x), c).value, StrictEquals(c, x).value;
      (gt || lt || eq) && !(gt && lt) && !(gt && eq) && !(lt && eq)
    ensures EvalTest(GtTest(x), c) == EvalTest(LtTest(c), x)
    ensures c.Num? ==> EvalTest(GtTest(x), c) == Ok(c.n > x.n) && EvalTest(LtTest(x), c) == Ok(c.n < x.n)
    ensures c.Str? ==> EvalTest(LtTest(x), c) == Ok(StrLess(c.s, x.s))
  {
    if c.Str? {
      if c.s == x.s {
        StrLessIrreflexive(c.s);
      } else {
        StrLessTotal(c.s, x.s);
        if StrLess(c.s, x.s) {
          StrLessAsymmetric(c.s, x.s);
        }
      }
    }
  }

  /** `in` with an array test value is membership, for any candidate that is not itself a container. */
  lemma {:induction false} InIsMembership(items: seq<Value>, c: Value)
    requires !IsContainer(c)
    ensures EvalTest(InTest(Arr(items)), c) == Ok(c in items)
  {
    if items != [] {
      InIsMembership(items[1..], c);
      assert items == [items[0]] + items[1..];
    }
  }

  /**
   * Under a decimal schema, `eq` with a numeral test value holds of a numeral candidate iff both
   * denote the same number.
   */
  lemma DecimalEquality(test: string, candidate: string)
    requires ParseNumeral(test).Some? && ParseNumeral(candidate).Some?
    ensures var decimal := Schema(Some("decimal"), None, None);
      && CompileExpr(Obj([Field("eq", Str(test))]), decimal) == Ok(Pred(Some("decimal"), [EqTest(Num(ParseNumeral(test).value))]))
      && Eval(CompileExpr(Obj([Field("eq", Str(test))]), decimal).value, Str(candidate)) ==
         Ok(ParseNumeral(candidate) == ParseNumeral(test))
  {
    var decimal := Schema(Some("decimal"), None, None);
    SingleEntry(Eq, Str(test), decimal);
    var e := [EqTest(Num(ParseNumeral(test).value))];
    assert ConvertTo(Str(test), decimal.typ) == Ok(Num(ParseNumeral(test).value));
    assert ConvertTo(Str(candidate), decimal.typ) == Ok(Num(ParseNumeral(candidate).value));
    assert e[0] == EqTest(Num(ParseNumeral(test).value)) && e[1..] == [];
    var c := Num(ParseNumeral(candidate).value);
    assert EvalTests(e[1..], c) == Ok(true);
    assert EvalTest(e[0], c) == Ok(ParseNumeral(candidate) == ParseNumeral(test));
  }

  /** Under a decimal schema, a one-test predicate applies its test to the numeral's value. */
  lemma DecimalSingleTest(t: Test, candidate: string)
    requires ParseNumeral(candidate).Some?
    ensures Eval(Pred(Some("decimal"), [t]), Str(candidate)) == EvalTest(t, Num(ParseNumeral(candidate).value))
  {
    var c := Num(ParseNumeral(candidate).value);
    assert ConvertTo(Str(candidate), Some("decimal")) == Ok(c);
    assert [t][0] == t && [t][1..] == [];
    assert EvalTests([t][1..], c) == Ok(true);
  }

  /** The relational operators on two numbers are the ordering of the reals. */
  lemma NumberComparison(x: real, y: real)
    ensures EvalTest(GtTest(Num(y)), Num(x)) == Ok(x > y)
    ensures EvalTest(LtTest(Num(y)), Num(x)) == Ok(x < y)
    ensures EvalTest(GteTest(Num(y)), Num(x)) == Ok(x >= y)
    ensures EvalTest(LteTest(Num(y)), Num(x)) == Ok(x <= y)
  {
  }

  /**
   * Under a decimal schema, `gt`, `lt`, `gte` and `lte` with a numeral test value compare a numeral
   * candidate with it by numeric value, not as strings.
   */
  lemma DecimalComparison(op: Operator, test: string, candidate: string)
    requires op in {Gt, Lt, Gte, Lte}
    requires ParseNumeral(test).Some? && ParseNumeral(candidate).Some?
    ensures var decimal := Schema(Some("decimal"), None, None);
      var p := CompileExpr(Obj([Field(op.Name(), Str(test))]), decimal);
      var x, y := ParseNumeral(candidate).value, ParseNumeral(test).value;
      && p.Ok?
      && (op == Gt ==> Eval(p.value, Str(candidate)) == Ok(x > y))
      && (op == Lt ==> Eval(p.value, Str(candidate)) == Ok(x < y))
      && (op == Gte ==> Eval(p.value, Str(candidate)) == Ok(x >= y))
      && (op == Lte ==> Eval(p.value, Str(candidate)) == Ok(x <= y))
  {
    var decimal := Schema(Some("decimal"), None, None);
    SingleEntry(op, Str(test), decimal);
    var y := ParseNumeral(test).value;
    assert ConvertTo(Str(test), decimal.typ) == Ok(Num(y));
    var leaf := BuildTest(op, Num(y), decimal).value;
    DecimalSingleTest(leaf, candidate);
    NumberComparison(ParseNumeral(candidate).value, y);
  }

  /** Filtering "123.00", "123" and "123.01" with `eq: "123.0"` under a decimal schema keeps the first two. */
  lemma DecimalFilterExample()
    ensures var p := CompileExpr(Obj([Field("eq", Str("123.0"))]), Schema(Some("decimal"), None, None));
      && p.Ok?
      && Eval(p.value, Str("123.00")) == Ok(true)
      && Eval(p.value, Str("123")) == Ok(true)
      && Eval(p.value, Str("123.01")) == Ok(false)
  {
    Numerals.DecimalExamples();
    DecimalEquality("123.0", "123.00");
    DecimalEquality("123.0", "123");
    DecimalEquality("123.0", "123.01");
  }

  // ----- props -----

  /** The test `props` builds for one key holds on c. */
  predicate PropHolds(pt: PropTest, c: Value)
  {
    Property(c, pt.key).Ok? && Eval(pt.pred, Property(c, pt.key).value) == Ok(true)
  }

  /** `props` holds iff each listed property's predicate holds on that property of the candidate. */
  lemma {:induction false} EvalPropsIff(fields: seq<PropTest>, c: Value)
    ensures EvalProps(fields, c) == Ok(true) <==> forall i | 0 <= i < |fields| :: PropHolds(fields[i], c)
  {
    if fields != [] {
      EvalPropsIff(fields[1..], c);
      assert forall j | 1 <= j < |fields| :: fields[1..][j - 1] == fields[j];
    }
  }

  /** Properties of the candidate that `props` does not list are ignored: only the listed keys are read. */
  lemma {:induction false} PropsReadOnlyListedKeys(fields: seq<PropTest>, c1: seq<Field>, c2: seq<Field>)
    requires forall i | 0 <= i < |fields| :: Values.Lookup(c1, fields[i].key) == Values.Lookup(c2, fields[i].key)
    ensures EvalProps(fields, Obj(c1)) == EvalProps(fields, Obj(c2))
  {
    if fields != [] {
      assert forall j | 0 <= j < |fields| - 1 :: fields[1..][j] == fields[j + 1];
      PropsReadOnlyListedKeys(fields[1..], c1, c2);
    }
  }

  /** A property added to the candidate under a key `props` does not list changes nothing. */
  lemma UnlistedPropertyIgnored(fields: seq<PropTest>, c: seq<Field>, extra: Field)
    requires forall i | 0 <= i < |fields| :: fields[i].key != extra.key
    ensures EvalProps(fields, Obj(c + [extra])) == EvalProps(fields, Obj(c))
  {
    forall i | 0 <= i < |fields|
      ensures Values.Lookup(c + [extra], fields[i].key) == Values.Lookup(c, fields[i].key)
    {
      LookupAppend(c, extra, fields[i].key);
    }
    PropsReadOnlyListedKeys(fields, c + [extra], c);
  }

  lemma {:induction false} LookupAppend(c: seq<Field>, extra: Field, key: string)
    requires extra.key != key
    ensures Values.Lookup(c + [extra], key) == Values.Lookup(c, key)
  {
    if c == [] {
      assert c + [extra] == [extra];
    } else {
      assert (c + [extra])[0] == c[0] && (c + [extra])[1..] == c[1..] + [extra];
      LookupAppend(c[1..], extra, key);
    }
  }

  /**
   * `props` with a single key: compiled against that key's schema, and evaluated on the candidate's
   * property of that name.  Applied level by level, this is how nested `props` follow the schema.
   */
  lemma SingleProp(key: string, sub: Value, schema: Schema, v: Value)
    requires IdentityType(schema.typ)
    requires CompileExpr(Obj([Field("props", Obj([Field(key, sub)]))]), schema).Ok?
    ensures CompileExpr(sub, PropSchema(schema, key)).Ok?
    ensures Eval(CompileExpr(Obj([Field("props", Obj([Field(key, sub)]))]), schema).value, v) ==
      match Property(v, key)
      case Err(e) => Err(e)
      case Ok(x) => Eval(CompileExpr(sub, PropSchema(schema, key)).value, x)
  {
    assert Props.Name() == "props";
    SingleEntry(Props, Obj([Field(key, sub)]), schema);
    OnePropFactory(key, sub, schema);
    var q := CompileExpr(sub, PropSchema(schema, key)).value;
    SingleTestEval(schema.typ, PropsTest([PropTest(key, q)]), v);
    OnePropTestEval(key, q, v);
  }

  /** A `props` test with one property reads that property and applies its predicate to it. */
  lemma OnePropTestEval(key: string, q: Pred, v: Value)
    ensures Property(v, key).Err? ==> EvalTest(PropsTest([PropTest(key, q)]), v) == Err(Property(v, key).error)
    ensures Property(v, key).Ok? ==> EvalTest(PropsTest([PropTest(key, q)]), v) == Eval(q, Property(v, key).value)
  {
    var pts := [PropTest(key, q)];
    assert pts[0] == PropTest(key, q) && pts[1..] == [];
    assert EvalProps(pts[1..], v) == Ok(true);
  }

  /** Under an identity type, the factory of a one-key `props` wraps the key's compiled expression in one test. */
  lemma OnePropFactory(key: string, sub: Value, schema: Schema)
    requires IdentityType(schema.typ)
    ensures FactoryResult(Props, Obj([Field(key, sub)]), schema) ==
      match CompileExpr(sub, PropSchema(schema, key))
      case Err(e) => Err(e)
      case Ok(q) => Ok(Pred(schema.typ, [PropsTest([PropTest(key, q)])]))
  {
    var fs := [Field(key, sub)];
    assert ConvertTo(Obj(fs), schema.typ) == Ok(Obj(fs));
    assert BuildTest(Props, Obj(fs), schema) == MapPropTests(CompileProps(fs, schema));
    assert fs[0] == Field(key, sub) && fs[1..] == [];
    assert CompileProps(fs[1..], schema) == Ok([]);
    match CompileExpr(sub, PropSchema(schema, key))
    case Err(_) =>
    case Ok(q) => assert [PropTest(key, q)] + [] == [PropTest(key, q)];
  }

  /**
   * A missing property reads as undefined, which `eq` never equals: `props` with an `eq` on a key the
   * candidate lacks is false.
   */
  lemma MissingPropertyFailsEq(key: string, x: Value, schema: Schema, c: seq<Field>)
    requires IdentityType(schema.typ) && KnownType(PropSchema(schema, key).typ)
    requires x != Undef && ConvertTo(x, PropSchema(schema, key).typ).Ok?
    requires key !in Keys(c) && key !in PrototypeKeys
    ensures CompileExpr(Obj([Field("props", Obj([Field(key, Obj([Field("eq", x)]))]))]), schema).Ok?
    ensures Eval(CompileExpr(Obj([Field("props", Obj([Field(key, Obj([Field("eq", x)]))]))]), schema).value, Obj(c)) == Ok(false)
  {
    var inner := PropSchema(schema, key);
    var sub := Obj([Field("eq", x)]);
    assert Eq.Name() == "eq";
    LeafCompiles(Eq, x, inner);
    var cx := ConvertTo(x, inner.typ).value;
    var q := Pred(inner.typ, [EqTest(cx)]);
    OnePropCompiles(key, sub, q, schema);
    SingleProp(key, sub, schema, Obj(c));
    assert Property(Obj(c), key) == Ok(Undef);
    var u := ConvertTo(Undef, inner.typ).value;
    assert u == Undef || u == NaN;
    OneTestEval(inner.typ, EqTest(cx), Undef);
  }

  /** A one-key `props` expression compiles to one property test holding the key's compiled expression. */
  lemma OnePropCompiles(key: string, sub: Value, q: Pred, schema: Schema)
    requires IdentityType(schema.typ) && CompileExpr(sub, PropSchema(schema, key)) == Ok(q)
    ensures CompileExpr(Obj([Field("props", Obj([Field(key, sub)]))]), schema) ==
      Ok(Pred(schema.typ, [PropsTest([PropTest(key, q)])]))
  {
    assert Props.Name() == "props";
    SingleEntry(Props, Obj([Field(key, sub)]), schema);
    OnePropFactory(key, sub, schema);
  }

  // ----- or, some, every, none -----

  /** `or` is false iff every alternative is false; when none raises, it is true iff one is true. */
  lemma EvalAnyIff(ps: seq<Pred>, c: Value)
    ensures EvalAny(ps, c) == Ok(false) <==> forall i | 0 <= i < |ps| :: Eval(ps[i], c) == Ok(false)
    ensures (forall i | 0 <= i < |ps| :: Eval(ps[i], c).Ok?) ==>
      (EvalAny(ps, c) == Ok(true) <==> exists i | 0 <= i < |ps| :: Eval(ps[i], c) == Ok(true))
  {
    EvalAnyFalseIff(ps, c);
    if forall i | 0 <= i < |ps| :: Eval(ps[i], c).Ok? {
      EvalAnyTrueIff(ps, c);
    }
  }

  lemma {:induction false} EvalAnyFalseIff(ps: seq<Pred>, c: Value)
    ensures EvalAny(ps, c) == Ok(false) <==> forall i | 0 <= i < |ps| :: Eval(ps[i], c) == Ok(false)
  {
    if ps != [] {
      EvalAnyFalseIff(ps[1..], c);
      assert forall j | 1 <= j < |ps| :: ps[1..][j - 1] == ps[j];
      if Eval(ps[0], c) == Ok(false) {
        assert EvalAny(ps, c) == EvalAny(ps[1..], c);
      } else {
        assert EvalAny(ps, c) != Ok(false);
      }
    }
  }

  lemma {:induction false} EvalAnyTrueIff(ps: seq<Pred>, c: Value)
    requires forall i | 0 <= i < |ps| :: Eval(ps[i], c).Ok?
    ensures EvalAny(ps, c) == Ok(true) <==> exists i | 0 <= i < |ps| :: Eval(ps[i], c) == Ok(true)
  {
    if ps != [] {
      var first := Eval(ps[0], c);
      assert first.Ok?;
      if !first.value {
        var rest := ps[1..];
        assert forall j | 0 <= j < |rest| :: rest[j] == ps[j + 1];
        EvalAnyTrueIff(rest, c);
        assert EvalAny(ps, c) == EvalAny(rest, c);
        forall i | 0 <= i < |ps| && Eval(ps[i], c) == Ok(true)
          ensures exists k | 0 <= k < |rest| :: Eval(rest[k], c) == Ok(true)
        {
          assert rest[i - 1] == ps[i];
        }
      }
    }
  }

  /** `some` is false iff no element satisfies the sub-predicate; when none raises, true iff one does. */
  lemma {:induction false} SomeElementIff(q: Pred, items: seq<Value>)
    ensures SomeElement(q, items) == Ok(false) <==> forall i | 0 <= i < |items| :: Eval(q, items[i]) == Ok(false)
    ensures (forall i | 0 <= i < |items| :: Eval(q, items[i]).Ok?) ==>
      (SomeElement(q, items) == Ok(true) <==> exists i | 0 <= i < |items| :: Eval(q, items[i]) == Ok(true))
  {
    if items != [] {
      SomeElementIff(q, items[1..]);
      assert forall j | 1 <= j < |items| :: items[1..][j - 1] == items[j];
    }
  }

  /** `every` is true iff every element satisfies the sub-predicate. */
  lemma {:induction false} EveryElementIff(q: Pred, items: seq<Value>)
    ensures EveryElement(q, items) == Ok(true) <==> forall i | 0 <= i < |items| :: Eval(q, items[i]) == Ok(true)
  {
    if items != [] {
      EveryElementIff(q, items[1..]);
      assert forall j | 1 <= j < |items| :: items[1..][j - 1] == items[j];
    }
  }

  /**
   * `none` is the negation of `some`; on an array `some` and `every` run over its elements; on an
   * empty array `every` and `none` are true and `some` is false; on anything but an array all three
   * raise a TypeError.
   */
  lemma ArrayQuantifiers(q: Pred, c: Value)
    ensures EvalTest(NoneTest(q), c) == Negate(EvalTest(SomeTest(q), c))
    ensures c.Arr? ==> EvalTest(SomeTest(q), c) == SomeElement(q, c.items) && EvalTest(EveryTest(q), c) == EveryElement(q, c.items)
    ensures c == Arr([]) ==>
      EvalTest(SomeTest(q), c) == Ok(false) && EvalTest(EveryTest(q), c) == Ok(true) && EvalTest(NoneTest(q), c) == Ok(true)
    ensures !c.Arr? ==>
      EvalTest(SomeTest(q), c) == Err(TypeError) && EvalTest(EveryTest(q), c) == Err(TypeError) &&
      EvalTest(NoneTest(q), c) == Err(TypeError)
  {
  }

  /** `or` runs its alternatives on the candidate. */
  lemma OrRunsAlternatives(ps: seq<Pred>, c: Value)
    ensures EvalTest(OrTest(ps), c) == EvalAny(ps, c)
  {
  }

  /**
   * An `or` expression compiles each alternative against `schema.items` (the default schema when
   * absent) and is false of a candidate iff every compiled alternative is; when no alternative raises,
   * it is true iff some alternative is.
   */
  lemma OrMeaning(alternatives: seq<Value>, schema: Schema, v: Value)
    requires IdentityType(schema.typ)
    requires CompileExpr(Obj([Field("or", Arr(alternatives))]), schema).Ok?
    ensures forall i | 0 <= i < |alternatives| :: CompileExpr(alternatives[i], ItemsSchema(schema)).Ok?
    ensures Eval(CompileExpr(Obj([Field("or", Arr(alternatives))]), schema).value, v) == Ok(false) <==>
      forall i | 0 <= i < |alternatives| :: Eval(CompileExpr(alternatives[i], ItemsSchema(schema)).value, v) == Ok(false)
    ensures (forall i | 0 <= i < |alternatives| :: Eval(CompileExpr(alternatives[i], ItemsSchema(schema)).value, v).Ok?) ==>
      (Eval(CompileExpr(Obj([Field("or", Arr(alternatives))]), schema).value, v) == Ok(true) <==>
       exists i | 0 <= i < |alternatives| :: Eval(CompileExpr(alternatives[i], ItemsSchema(schema)).value, v) == Ok(true))
  {
    SingleEntry(Or, Arr(alternatives), schema);
    CompileAllSucceedsIff(alternatives, ItemsSchema(schema));
    var ps := CompileAll(alternatives, ItemsSchema(schema)).value;
    assert CompileExpr(Obj([Field("or", Arr(alternatives))]), schema).value == Pred(schema.typ, [OrTest(ps)]);
    SingleTestEval(schema.typ, OrTest(ps), v);
    OrRunsAlternatives(ps, v);
    EvalAnyIff(ps, v);
  }

  /**
   * An `every` expression compiles its sub-expression against `schema.items` and holds of an array iff
   * every element satisfies the compiled sub-expression.
   */
  lemma EveryMeaning(sub: Value, schema: Schema, items: seq<Value>)
    requires IdentityType(schema.typ)
    requires CompileExpr(Obj([Field("every", sub)]), schema).Ok?
    ensures CompileExpr(sub, ItemsSchema(schema)).Ok?
    ensures Eval(CompileExpr(Obj([Field("every", sub)]), schema).value, Arr(items)) == Ok(true) <==>
      forall i | 0 <= i < |items| :: Eval(CompileExpr(sub, ItemsSchema(schema)).value, items[i]) == Ok(true)
  {
    assert EveryOf.Name() == "every";
    QuantifierCompiles(EveryOf, sub, schema);
    var q := CompileExpr(sub, ItemsSchema(schema)).value;
    var p := CompileExpr(Obj([Field(EveryOf.Name(), sub)]), schema).value;
    assert p == Pred(schema.typ, [EveryTest(q)]);
    SingleTestEval(schema.typ, EveryTest(q), Arr(items));
    ArrayQuantifiers(q, Arr(items));
    EveryElementIff(q, items);
  }

  /**
   * A `some` expression holds of an array whose elements all evaluate without error iff one element
   * satisfies the compiled sub-expression; `none` holds of it iff no element does.
   */
  lemma SomeAndNoneMeaning(sub: Value, schema: Schema, items: seq<Value>)
    requires IdentityType(schema.typ)
    requires CompileExpr(sub, ItemsSchema(schema)).Ok?
    requires forall i | 0 <= i < |items| :: Eval(CompileExpr(sub, ItemsSchema(schema)).value, items[i]).Ok?
    ensures CompileExpr(Obj([Field("some", sub)]), schema).Ok? && CompileExpr(Obj([Field("none", sub)]), schema).Ok?
    ensures Eval(CompileExpr(Obj([Field("some", sub)]), schema).value, Arr(items)) == Ok(true) <==>
      exists i | 0 <= i < |items| :: Eval(CompileExpr(sub, ItemsSchema(schema)).value, items[i]) == Ok(true)
    ensures Eval(CompileExpr(Obj([Field("none", sub)]), schema).value, Arr(items)) == Ok(true) <==>
      forall i | 0 <= i < |items| :: Eval(CompileExpr(sub, ItemsSchema(schema)).value, items[i]) == Ok(false)
  {
    var q := CompileExpr(sub, ItemsSchema(schema)).value;
    var some := SomeOfArray(sub, schema, items);
    var none := NoneOfArray(sub, schema, items);
    SomeElementIff(q, items);
  }

  /** The predicate of a one-entry `some` expression is SomeElement over the array's elements. */
  lemma SomeOfArray(sub: Value, schema: Schema, items: seq<Value>) returns (p: Pred)
    requires IdentityType(schema.typ)
    requires CompileExpr(sub, ItemsSchema(schema)).Ok?
    ensures CompileExpr(Obj([Field("some", sub)]), schema) == Ok(p)
    ensures Eval(p, Arr(items)) == SomeElement(CompileExpr(sub, ItemsSchema(schema)).value, items)
  {
    assert SomeOf.Name() == "some";
    QuantifierCompiles(SomeOf, sub, schema);
    var q := CompileExpr(sub, ItemsSchema(schema)).value;
    p := Pred(schema.typ, [SomeTest(q)]);
    SingleTestEval(schema.typ, SomeTest(q), Arr(items));
    ArrayQuantifiers(q, Arr(items));
  }

  /** The predicate of a one-entry `none` expression negates SomeElement over the array's elements. */
  lemma NoneOfArray(sub: Value, schema: Schema, items: seq<Value>) returns (p: Pred)
    requires IdentityType(schema.typ)
    requires CompileExpr(sub, ItemsSchema(schema)).Ok?
    ensures CompileExpr(Obj([Field("none", sub)]), schema) == Ok(p)
    ensures Eval(p, Arr(items)) == Negate(SomeElement(CompileExpr(sub, ItemsSchema(schema)).value, items))
  {
    assert NoneOf.Name() == "none";
    QuantifierCompiles(NoneOf, sub, schema);
    var q := CompileExpr(sub, ItemsSchema(schema)).value;
    p := Pred(schema.typ, [NoneTest(q)]);
    SingleTestEval(schema.typ, NoneTest(q), Arr(items));
    ArrayQuantifiers(q, Arr(items));
  }
}
