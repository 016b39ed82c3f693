/** Worked examples: the predicates some concrete expressions compile to, and what they select. */
module Examples {
  import opened Wrappers
  import opened Values
  import opened Types
  import opened Operators
  import opened Compiler
  import opened CompileProperties
  import opened EvalProperties
  import Numerals

  const StringSchema := Schema(Some("string"), None, None)

  /** `{ type: 'object', props: { currency: { type: 'string' }, amount: { type: 'decimal' } } }`. */
  const PaymentSchema := Schema(Some("object"), Some(map["currency" := StringSchema, "amount" := DecimalSchema]), None)

  /** `{ props: { currency: { eq: 'GBP' }, amount: { eq: '123' } } }`. */
  const PaymentExpr := Obj([Field("props", Obj([Field("currency", Obj([Field("eq", Str("GBP"))])),
                                                Field("amount", Obj([Field("eq", Str("123"))]))]))])

  /**
   * The payment schema as the test suite writes it, under `properties`: the compiler reads only
   * `props`, so this is an object schema without property schemas.
   */
  const WrittenPaymentSchema := Schema(Some("object"), None, None)

  /** The compiled currency and amount tests under the payment schema. */
  const CurrencyPred := Pred(Some("string"), [EqTest(Str("GBP"))])
  const AmountPred := Pred(Some("decimal"), [EqTest(Num(123.0))])

  function Payment(currency: string, amount: string): Value
  {
    Obj([Field("currency", Str(currency)), Field("amount", Str(amount))])
  }

  /** The compiled test of one `eq` on a string under a schema whose converter is the identity. */
  lemma EqUnderIdentity(test: string, candidate: string, schema: Schema)
    requires IdentityType(schema.typ)
    ensures CompileExpr(Obj([Field("eq", Str(test))]), schema) == Ok(Pred(schema.typ, [EqTest(Str(test))]))
    ensures Eval(Pred(schema.typ, [EqTest(Str(test))]), Str(candidate)) == Ok(candidate == test)
  {
    assert Eq.Name() == "eq";
    SingleEntry(Eq, Str(test), schema);
    assert ConvertTo(Str(test), schema.typ) == Ok(Str(test));
    SingleTestEval(schema.typ, EqTest(Str(test)), Str(candidate));
  }

  /**
   * Under `decimal`, `{ eq: '0.1' }` rejects `0.f` for every fraction f of two or more digits ending
   * in 1, because numerals keep their exact value here.  JavaScript's `parseFloat` rounds a long
   * enough `0.f` to the same double as 0.1, so it accepts '0.10000000000000001'
   * (f = "10000000000000001").
   */
  lemma ExactFractionRejected(f: string)
    requires IsDigits(f) && |f| >= 2 && f[|f| - 1] == '1'
    ensures var p := CompileExpr(Obj([Field("eq", Str("0.1"))]), Schema(Some("decimal"), None, None));
      && p.Ok?
      && Eval(p.value, Str("0.1")) == Ok(true)
      && Eval(p.value, Str("0." + f)) == Ok(false)
  {
    Numerals.ExactValueKept(f);
    DecimalEquality("0.1", "0.1");
    DecimalEquality("0.1", "0." + f);
  }

  /** `eq` is `===`: it does not ignore case, so `{ eq: 'JOE' }` rejects 'joe'. */
  lemma EqIsCaseSensitive()
    ensures CompileExpr(Obj([Field("eq", Str("JOE"))]), AnySchema).Ok?
    ensures Eval(CompileExpr(Obj([Field("eq", Str("JOE"))]), AnySchema).value, Str("joe")) == Ok(false)
  {
    EqUnderIdentity("JOE", "joe", AnySchema);
    assert "JOE"[0] != "joe"[0];
  }

  /** Two `props` keys, each compiled against its own property's schema. */
  lemma TwoPropsCompile(k1: string, e1: Value, p1: Pred, k2: string, e2: Value, p2: Pred, schema: Schema)
    requires CompileExpr(e1, PropSchema(schema, k1)) == Ok(p1)
    requires CompileExpr(e2, PropSchema(schema, k2)) == Ok(p2)
    ensures CompileProps([Field(k1, e1), Field(k2, e2)], schema) == Ok([PropTest(k1, p1), PropTest(k2, p2)])
  {
    var fs := [Field(k1, e1), Field(k2, e2)];
    assert fs[0] == Field(k1, e1) && fs[1..] == [Field(k2, e2)];
    assert fs[1..][0] == Field(k2, e2) && fs[1..][1..] == [];
    assert CompileProps(fs[1..][1..], schema) == Ok([]);
    assert [PropTest(k2, p2)] + [] == [PropTest(k2, p2)];
    assert CompileProps(fs[1..], schema) == Ok([PropTest(k2, p2)]);
    assert [PropTest(k1, p1)] + [PropTest(k2, p2)] == [PropTest(k1, p1), PropTest(k2, p2)];
  }

  /** A one-entry `props` expression under an identity type compiles to the one `props` test. */
  lemma PropsEntryCompiles(fs: seq<Field>, pts: seq<PropTest>, schema: Schema)
    requires IdentityType(schema.typ) && CompileProps(fs, schema) == Ok(pts)
    ensures CompileExpr(Obj([Field("props", Obj(fs))]), schema) == Ok(Pred(schema.typ, [PropsTest(pts)]))
  {
    assert Props.Name() == "props";
    SingleEntry(Props, Obj(fs), schema);
    assert ConvertTo(Obj(fs), schema.typ) == Ok(Obj(fs));
    assert BuildTest(Props, Obj(fs), schema) == Ok(PropsTest(pts));
  }

  /** Reading either property of a two-property object. */
  lemma TwoFieldProperties(k1: string, x1: Value, k2: string, x2: Value)
    requires k1 != k2
    ensures Property(Obj([Field(k1, x1), Field(k2, x2)]), k1) == Ok(x1)
    ensures Property(Obj([Field(k1, x1), Field(k2, x2)]), k2) == Ok(x2)
  {
    var fs := [Field(k1, x1), Field(k2, x2)];
    assert fs[0] == Field(k1, x1) && fs[1..][0] == Field(k2, x2);
  }

  /** `props` with two keys whose tests both evaluate: true iff both hold. */
  lemma TwoPropsEval(a: PropTest, b: PropTest, c: Value)
    requires Property(c, a.key).Ok? && Eval(a.pred, Property(c, a.key).value).Ok?
    requires Property(c, b.key).Ok? && Eval(b.pred, Property(c, b.key).value).Ok?
    ensures EvalProps([a, b], c) == Ok(PropHolds(a, c) && PropHolds(b, c))
  {
    var pts := [a, b];
    assert pts[0] == a && pts[1..] == [b] && pts[1..][0] == b && pts[1..][1..] == [];
    assert EvalProps(pts[1..][1..], c) == Ok(true);
  }

  /** The payment expression compiles against the payment schema, property by property. */
  lemma PaymentCompiles()
    ensures CompileExpr(PaymentExpr, PaymentSchema) ==
      Ok(Pred(Some("object"), [PropsTest([PropTest("currency", CurrencyPred), PropTest("amount", AmountPred)])]))
  {
    assert PropSchema(PaymentSchema, "currency") == StringSchema;
    assert PropSchema(PaymentSchema, "amount") == DecimalSchema;
    EqUnderIdentity("GBP", "GBP", StringSchema);
    Numerals.DecimalExamples();
    DecimalEquality("123", "123");
    TwoPropsCompile("currency", Obj([Field("eq", Str("GBP"))]), CurrencyPred, "amount", Obj([Field("eq", Str("123"))]), AmountPred, PaymentSchema);
    PropsEntryCompiles(PaymentExpr.fields[0].val.fields, [PropTest("currency", CurrencyPred), PropTest("amount", AmountPred)], PaymentSchema);
  }

  /** A two-key `props` predicate on a two-property object: both properties' predicates hold. */
  lemma TwoPropsPredEval(typ: Option<string>, k1: string, p1: Pred, x1: Value, k2: string, p2: Pred, x2: Value)
    requires IdentityType(typ) && k1 != k2
    requires Eval(p1, x1).Ok? && Eval(p2, x2).Ok?
    ensures Eval(Pred(typ, [PropsTest([PropTest(k1, p1), PropTest(k2, p2)])]), Obj([Field(k1, x1), Field(k2, x2)])) ==
      Ok(Eval(p1, x1) == Ok(true) && Eval(p2, x2) == Ok(true))
  {
    var v := Obj([Field(k1, x1), Field(k2, x2)]);
    TwoFieldProperties(k1, x1, k2, x2);
    SingleTestEval(typ, PropsTest([PropTest(k1, p1), PropTest(k2, p2)]), v);
    TwoPropsEval(PropTest(k1, p1), PropTest(k2, p2), v);
  }

  /** The compiled currency test selects exactly the currency 'GBP'. */
  lemma CurrencyPredEval(currency: string)
    ensures Eval(CurrencyPred, Str(currency)) == Ok(currency == "GBP")
  {
    EqUnderIdentity("GBP", currency, StringSchema);
  }

  /** The compiled amount test selects exactly the numerals that denote 123. */
  lemma AmountPredEval(amount: string)
    requires ParseNumeral(amount).Some?
    ensures Eval(AmountPred, Str(amount)) == Ok(ParseNumeral(amount) == Some(123.0))
  {
    Numerals.DecimalExamples();
    DecimalEquality("123", amount);
  }

  /** The compiled payment predicate on one payment: the currency test and the amount test. */
  lemma PaymentEval(currency: string, amount: string)
    requires ParseNumeral(amount).Some?
    ensures Eval(Pred(Some("object"), [PropsTest([PropTest("currency", CurrencyPred), PropTest("amount", AmountPred)])]), Payment(currency, amount)) ==
      Ok(currency == "GBP" && ParseNumeral(amount) == Some(123.0))
  {
    CurrencyPredEval(currency);
    AmountPredEval(amount);
    assert "currency"[0] != "amount"[0];
    TwoPropsPredEval(Some("object"), "currency", CurrencyPred, Str(currency), "amount", AmountPred, Str(amount));
  }

  /**
   * The schema is followed into each property: `currency` is compared as a string and `amount` as a
   * decimal, so of four payments the ones in GBP whose amount is numerically 123 are selected.
   */
  lemma SchemaFollowedDeeply()
    ensures CompileExpr(PaymentExpr, PaymentSchema).Ok?
    ensures var p := CompileExpr(PaymentExpr, PaymentSchema).value;
      && Eval(p, Payment("GBP", "123.00")) == Ok(true)
      && Eval(p, Payment("GBP", "123.01")) == Ok(false)
      && Eval(p, Payment("GBP", "123.0")) == Ok(true)
      && Eval(p, Payment("EUR", "123")) == Ok(false)
  {
    Numerals.DecimalExamples();
    PaymentCompiles();
    PaymentEval("GBP", "123.00");
    PaymentEval("GBP", "123.01");
    PaymentEval("GBP", "123.0");
    PaymentEval("EUR", "123");
  }

  /**
   * Under the payment schema as the test suite writes it, both properties are compiled against the
   * default `any` schema: the payment predicate compares strings exactly, so a payment is selected
   * only when its amount is the string '123'.
   */
  lemma WrittenSchemaCompiles()
    ensures CompileExpr(PaymentExpr, WrittenPaymentSchema) ==
      Ok(Pred(Some("object"), [PropsTest([PropTest("currency", Pred(Some("any"), [EqTest(Str("GBP"))])),
                                          PropTest("amount", Pred(Some("any"), [EqTest(Str("123"))]))])]))
  {
    var pc := Pred(Some("any"), [EqTest(Str("GBP"))]);
    var pa := Pred(Some("any"), [EqTest(Str("123"))]);
    assert PropSchema(WrittenPaymentSchema, "currency") == AnySchema;
    assert PropSchema(WrittenPaymentSchema, "amount") == AnySchema;
    EqUnderIdentity("GBP", "GBP", AnySchema);
    EqUnderIdentity("123", "123", AnySchema);
    TwoPropsCompile("currency", Obj([Field("eq", Str("GBP"))]), pc, "amount", Obj([Field("eq", Str("123"))]), pa, WrittenPaymentSchema);
    PropsEntryCompiles(PaymentExpr.fields[0].val.fields, [PropTest("currency", pc), PropTest("amount", pa)], WrittenPaymentSchema);
  }

  /** The predicate the payment expression compiles to under the schema as written, on any payment. */
  lemma WrittenSchemaEval(currency: string, amount: string)
    ensures CompileExpr(PaymentExpr, WrittenPaymentSchema).Ok?
    ensures Eval(CompileExpr(PaymentExpr, WrittenPaymentSchema).value, Payment(currency, amount)) ==
      Ok(currency == "GBP" && amount == "123")
  {
    var pc := Pred(Some("any"), [EqTest(Str("GBP"))]);
    var pa := Pred(Some("any"), [EqTest(Str("123"))]);
    WrittenSchemaCompiles();
    EqUnderIdentity("GBP", currency, AnySchema);
    EqUnderIdentity("123", amount, AnySchema);
    assert "currency"[0] != "amount"[0];
    TwoPropsPredEval(Some("object"), "currency", pc, Str(currency), "amount", pa, Str(amount));
  }

  /**
   * With the schema under `properties`, none of the four payments of the deep-schema example is
   * selected, where the example expects the two GBP payments of numerically 123.
   */
  lemma WrittenSchemaSelectsNone()
    ensures CompileExpr(PaymentExpr, WrittenPaymentSchema).Ok?
    ensures var p := CompileExpr(PaymentExpr, WrittenPaymentSchema).value;
      && Eval(p, Payment("GBP", "123.00")) == Ok(false)
      && Eval(p, Payment("GBP", "123.01")) == Ok(false)
      && Eval(p, Payment("GBP", "123.0")) == Ok(false)
      && Eval(p, Payment("EUR", "123")) == Ok(false)
  {
    WrittenSchemaEval("GBP", "123.00");
    WrittenSchemaEval("GBP", "123.01");
    WrittenSchemaEval("GBP", "123.0");
    WrittenSchemaEval("EUR", "123");
  }

  /** `{ props: { k1: { props: { k2: { eq: x } } } } }`, the two-level `props` expression. */
  function NestedPropsExpr(k1: string, k2: string, x: string): Value
  {
    Obj([Field("props", Obj([Field(k1, Obj([Field("props", Obj([Field(k2, Obj([Field("eq", Str(x))]))]))]))]))])
  }

  /**
   * Nested `props` descend one property per level: the two-level expression holds of
   * `{ k1: { k2: y } }` iff y is x.
   */
  lemma NestedPropsEval(k1: string, k2: string, x: string, y: string)
    requires k1 !in PrototypeKeys && k2 !in PrototypeKeys
    ensures CompileExpr(NestedPropsExpr(k1, k2, x), AnySchema).Ok?
    ensures Eval(CompileExpr(NestedPropsExpr(k1, k2, x), AnySchema).value, Obj([Field(k1, Obj([Field(k2, Str(y))]))])) ==
      Ok(y == x)
  {
    var eqExpr := Obj([Field("eq", Str(x))]);
    var innerExpr := Obj([Field("props", Obj([Field(k2, eqExpr)]))]);
    var qe := Pred(Some("any"), [EqTest(Str(x))]);
    var qi := Pred(Some("any"), [PropsTest([PropTest(k2, qe)])]);
    var inner := Obj([Field(k2, Str(y))]);
    var v := Obj([Field(k1, inner)]);
    EqUnderIdentity(x, y, AnySchema);
    assert PropSchema(AnySchema, k1) == AnySchema && PropSchema(AnySchema, k2) == AnySchema;
    OnePropCompiles(k2, eqExpr, qe, AnySchema);
    OnePropCompiles(k1, innerExpr, qi, AnySchema);
    assert Property(v, k1) == Ok(inner);
    assert Property(inner, k2) == Ok(Str(y));
    SingleProp(k1, innerExpr, AnySchema, v);
    SingleProp(k2, eqExpr, AnySchema, inner);
  }

  /** The deep `props` examples: `{ foo: { bar: 'yes' } }` is selected and `{ foo: { bar: 'no' } }` is not. */
  lemma NestedPropsExample()
    ensures CompileExpr(NestedPropsExpr("foo", "bar", "yes"), AnySchema).Ok?
    ensures Eval(CompileExpr(NestedPropsExpr("foo", "bar", "yes"), AnySchema).value,
                 Obj([Field("foo", Obj([Field("bar", Str("yes"))]))])) == Ok(true)
    ensures Eval(CompileExpr(NestedPropsExpr("foo", "bar", "yes"), AnySchema).value,
                 Obj([Field("foo", Obj([Field("bar", Str("no"))]))])) == Ok(false)
  {
    assert "no"[0] != "yes"[0];
    NestedPropsEval("foo", "bar", "yes", "yes");
    NestedPropsEval("foo", "bar", "yes", "no");
  }
}
