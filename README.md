# json-el expression compiler, modelled in Dafny

json-el compiles a JSON expression into a predicate over JSON values. An expression is an object. Each
key names an operator, and each value is the test value for that operator:

- leaf operators: `eq`, `gt`, `lt`, `gte`, `lte`, `in`;
- combinators, which hold nested expressions: `props`, `or`, `some`, `every`, `none`.

An optional schema gives a `type`. The type selects a converter: `decimal` parses numerals, and every
other registered type is the identity. The converter is applied to each test value when compiling and
to the candidate when evaluating.

Compilation stops at the first error:

- an expression that is not a non-array object: "expression should be an object";
- an operator that is not registered: "unknown operator: <name>";
- a type that is not registered: "unknown type: <type>".

The compiled predicate converts its candidate and requires every test to hold.

The model follows `index.js`. It has two halves:

- The compiler turns an expression and a schema into a `Pred` or a `Fault`. A `Pred` is a syntax tree
  of already-converted test values. It replaces the library's closures.
  - `Compiler.Compile` is the library's loop over the expression's entries. It is proved to compute
    the recursive function `Compiler.CompileExpr`, which the combinators re-enter.
- The evaluator `Compiler.Eval` is the function the compiled closure computes.

Module by module:

- `Values`: the JSON values, which includes `undefined` for a missing property and `NaN` as a result of
  `parseFloat`. It also holds the JavaScript operations the operators use: `===`, SameValueZero,
  relational comparison, `includes` and property access.
- `Types`: the `types` table and `convertTo`. `parseFloat` is restricted to `[-]digits[.digits]`.
- `Numerals`: what the decimal parser computes.
- `Operators`: the `operators` table.
- `Errors`: the error kinds and message texts.
- `Compiler`: compilation and evaluation.
- `CompileProperties`, `EvalProperties`, `Examples`: the properties proved about them.

The method and the functions return a `Fault` where the library throws:

- `Malformed`, `UnknownOperator` and `UnknownType` are the library's own errors.
- `TypeError` is what the JavaScript runtime throws. Examples: reading a property of `null`, calling
  `.some` on a non-array, calling `.includes` on a number.
- `Unsupported` marks JavaScript behaviour outside the model. See "Left out".

Where the tests in `test.js` disagree with `index.js`, the model follows `index.js`:

- `eq` is strict equality (`===`, index.js:68). The test at test.js:35 expects `{ eq: 'JOE' }` to
  accept `'joe'`; the TODO at index.js:67 shows the lower-casing was never written
  (`Examples.EqIsCaseSensitive`).
- `props` takes its per-property schemas from `schema.props` (index.js:38). The test at
  test.js:206-227 writes the schema as `properties`. Under `index.js` only that test's `type: 'object'`
  is consulted; the per-property schemas under `properties` are ignored, so the amount is not
  converted with `decimal`, and none of its four payments is selected (`Examples.WrittenSchemaSelectsNone`).
  `Examples.SchemaFollowedDeeply` proves the intended result with the schema under `props`.
- A schema object without `type` does not behave as `any`. `types.get(undefined)` fails, so compiling
  any non-empty expression whose first key is a registered operator raises "unknown type: undefined"
  (index.js:29-33). An unregistered first key is reported as "unknown operator" first
  (`CompileProperties.UnknownTypeReported`). Only an omitted
  schema argument gets the default `{ type: 'any' }` (index.js:88). `Compile` therefore takes an
  `Option<Schema>`.
- The conversion at index.js:99 applies to every test value, combinators included. Under `decimal`,
  `parseFloat` turns the nested expression of `some`, `every` and `none` into `NaN`, and compilation
  then reports "expression should be an object". An object with an own `toString` raises a TypeError
  in `parseFloat` instead of becoming `NaN` (`CompileProperties.DecimalQuantifierOperand`).

## Model

| member | source | states |
|---|---|---|
| Types.LookupType | index.js:19-27 | a type name is registered iff it is one of the seven names of the table, and its converter is `parseFloat` exactly for `decimal` |
| Types.Resolve | index.js:29-33 | the converter is found iff `type` is present and registered; otherwise the error is "unknown type" with `type` (or `undefined` when absent) as its label |
| Types.ConvertTo | index.js:29-35 | an unknown or missing type raises "unknown type: <type>"; every registered type but `decimal` returns the value unchanged; `decimal` is `parseFloat`, so a numeral converts to the number it denotes; a converted value is never larger than the original |
| Types.ParseFloatValue | index.js:20 | a numeral string becomes the number it denotes; the empty string and a string whose first character is printable ASCII that cannot start a number become NaN; a number is unchanged; undefined, null, booleans, NaN and `[]` become NaN; an object becomes NaN, or raises a TypeError when it has an own `toString`; a non-empty array holding such an object at any depth raises a TypeError; the result is Unsupported exactly for the other strings and for the other non-empty arrays, and is otherwise a number or NaN |
| Types.ParseNumeral | index.js:20 | a string is parsed exactly when it has the shape `[-]digits[.digits]` (`Types.IsNumeral`); a numeral starts with a digit or a minus sign; with a minus sign its value is not positive, without one it is not negative |
| Types.FirstDotSplit | index.js:20 | splitting a string at its first '.' and requiring digits on both sides, or digits throughout when there is no '.', accepts exactly the strings of shape `digits[.digits]` |
| Numerals.IntegerNumeral | index.js:20 | a run of digits parses to the number the digits denote |
| Numerals.FractionNumeral | index.js:20 | `i.f` parses to i + f / 10^(number of digits of f) |
| Numerals.NegativeNumeral | index.js:20 | a leading minus sign negates the parsed value |
| Numerals.TrailingZero | index.js:20 | a trailing zero after the decimal point, or a bare `.0`, does not change the parsed value |
| Numerals.ExactValueKept | index.js:20 | "0.1" denotes 0.1, and '0.' followed by a fraction of two or more digits ending in 1 denotes a different number: numerals keep their exact value |
| Numerals.DecimalExamples | test.js:64-65 | "123", "123.0" and "123.00" denote 123 and "123.01" denotes 123.01 |
| Operators.Lookup | index.js:66-79 | `operators.get(name)` finds an operator with that name, and finds none iff no operator has that name |
| Errors.Fault.Message | index.js:3-15 | the messages of the three library errors: "expression should be an object", "unknown operator: " followed by the operator, "unknown type: " followed by the type label |
| Errors.MessageIdentifiesError | index.js:3-15 | two library errors with the same message are the same error, operator or type label included |
| Values.StrictEquals | index.js:68 | `===` is defined except between two containers; it holds only of equal values, never when either side is NaN, and always of equal primitives other than NaN |
| Values.SameValueZero | index.js:73 | defined except between two containers, and then true iff the two values are equal, NaN being equal to NaN |
| Values.Compare | index.js:69-72 | an object with an own `toString`, or an array holding one at any depth, on either side raises a TypeError, before anything else is considered; otherwise undefined or NaN on either side is unordered; two strings compare lexicographically: less, equal or greater iff the first is lexicographically before, the same as, or after the second; null, booleans and numbers compare by numeric value (null and false 0, true 1); these are the only defined cases |
| Values.CompareFlip | index.js:69-72 | comparing the operands the other way round is defined iff the comparison is, and flips less and greater; a failing comparison fails with the same error either way round |
| Values.Includes | index.js:73 | a value that is not a container is included iff it is an element; an element is included whenever the search is defined |
| Values.ToStr | index.js:73 | `String` of a string is that string; of an object it is "[object Object]", except that an own `toString` makes it raise a TypeError; undefined, null, true, false and NaN become "undefined", "null", "true", "false" and "NaN"; it raises a TypeError exactly for an object with an own `toString` or an array holding one at any depth, and is Unsupported exactly for numbers and the other arrays |
| Values.Property | index.js:41 | reading a property of null or undefined raises a TypeError; an object's own property is the value of its field; a missing key reads as undefined, except an Object.prototype key; other values are Unsupported |
| Values.Lookup | index.js:41 | an object's property is absent iff no field has that key, and otherwise is the value of a field with that key |
| Values.IndexedFields | index.js:39 | `Object.entries` of an array lists each element under its index, in order |
| Values.StrLessIrreflexive | index.js:69-72 | no string is less than itself |
| Values.StrLessAsymmetric | index.js:69-72 | two strings are never each less than the other |
| Values.StrLessTransitive | index.js:69-72 | string ordering is transitive |
| Values.StrLessTotal | index.js:69-72 | of two different strings, one is less than the other |
| Values.StrLessTrichotomy | index.js:69-72 | of two strings, exactly one is less than the other, or they are equal |
| Compiler.Compile | index.js:88-106 | the loop computes `CompileExpr` with the default schema applied only to an omitted schema; a non-object is rejected as malformed; a result has one test per entry and the schema's type |
| Compiler.CompileExpr | index.js:88-100 | a non-object expression is malformed; a compiled predicate keeps the schema's type and has one test per entry (fully specified by CompileProperties.CompileSucceedsIff) |
| Compiler.CompileEntries | index.js:94-100 | one test per entry; when the first entry fails, its error is the result (CompileProperties.EntriesSucceedIff gives the rest) |
| Compiler.CompileEntry | index.js:95-99 | an unregistered operator fails with "unknown operator" before the type is looked up; a registered operator under an unknown type fails with "unknown type"; a successful entry's test belongs to the operator its key names |
| Compiler.BuildTest | index.js:66-79 | the factory builds a test of its own operator; each leaf factory builds the test that holds on to the converted test value it was given, and nothing else (`Compiler.LeafTest`), so it never fails; `or` of a non-array raises a TypeError |
| Compiler.PropsFn | index.js:37-40 | `props` of null or undefined raises a TypeError; a non-empty string is malformed, since its entries are one-character strings; numbers, booleans and NaN give a `props` test without property tests; for an object or array, when it compiles, a `props` test with one property test per entry of the object, under the entry's key, or per element of the array, under its index (a failing entry's error is the result: CompileProperties.PropsSubExpressionFault) |
| Compiler.CompileProps | index.js:39-40 | one property test per entry, with the entries' keys in order |
| Compiler.PropSchema | index.js:37-40 | a property's schema is `schema.props[key]` for an object schema listing the key; in every other case (no `props`, a `props` without the key, or a type other than `object`) it is the default schema, or a schema without `type` for an Object.prototype key |
| Compiler.CompileAll | index.js:46-47 | one predicate per alternative of `or` |
| Compiler.ItemsSchema | index.js:46-63 | nested expressions of `or`, `some`, `every` and `none` use `schema.items`, or the default schema when it is absent |
| Compiler.Eval | index.js:102-105 | an unknown type raises "unknown type" when the predicate is called; without tests the predicate holds of every candidate that converts (EvalProperties.EvalIsConjunction gives the rest) |
| Compiler.EvalTests | index.js:104 | no tests are true; a false first test makes the conjunction false (EvalProperties.EvalTestsIff gives the rest) |
| Compiler.EvalTest | index.js:68-79 | `eq` is `===`; `some`, `every` and `none` of a non-array raise a TypeError (EvalProperties.ComparisonTests and ArrayQuantifiers give the other operators) |
| Compiler.InFn | index.js:73 | with an array test value, `in` is membership of a non-container candidate; with a string test value, substring search for the candidate's string form (`String(v)`) wherever the model describes it, and a TypeError for a candidate whose string conversion throws (an object with an own `toString`, or an array holding one); any other test value raises a TypeError |
| Compiler.EvalProps | index.js:41-43 | no properties are true; listed properties of null or undefined raise a TypeError (EvalProperties.EvalPropsIff gives the rest) |
| Compiler.EvalAny | index.js:48 | `or` without alternatives is false; a true first alternative makes it true (EvalProperties.EvalAnyIff gives the rest) |
| Compiler.SomeElement | index.js:53 | `some` of an empty array is false; a true first element makes it true (EvalProperties.SomeElementIff gives the rest) |
| Compiler.EveryElement | index.js:58 | `every` of an empty array is true; a false first element makes it false (EvalProperties.EveryElementIff gives the rest) |
| Compiler.EntriesAppend | index.js:94-100 | compiling the entries of two parts is compiling the first part, then the second, the first error winning |
| Compiler.PrefixFault | index.js:94-99 | once the entries before i compile and entry i fails, compilation fails with entry i's error |
| CompileProperties.EntriesSucceedIff | index.js:94-100 | the loop succeeds iff every entry compiles, and then test j is entry j's test |
| CompileProperties.CompileSucceedsIff | index.js:92-105 | an object expression compiles iff each entry does, to a predicate with the schema's type and one test per entry, in order |
| CompileProperties.FirstBadEntryDecides | index.js:94-99 | the first entry that fails decides the error of the whole expression |
| CompileProperties.MalformedExpression | index.js:89-91 | null, undefined, scalars and arrays are rejected with "expression should be an object" under any schema |
| CompileProperties.UnknownOperatorReported | index.js:95-98 | an unregistered operator after entries that compile fails with "unknown operator: <name>" |
| CompileProperties.UnknownTypeReported | index.js:29-33 | under an unknown type, a non-empty expression fails at its first entry: "unknown operator" if that entry's key is unregistered, since lookup comes first; otherwise "unknown type: <type>", and "unknown type: undefined" when `type` is absent |
| CompileProperties.CompiledTypeIsKnown | index.js:99 | a non-empty expression that compiles has a registered schema type |
| CompileProperties.SingleEntry | index.js:95-99 | a one-entry expression compiles to the test that its operator's factory builds from the converted test value |
| CompileProperties.CompileAllSucceedsIff | index.js:47 | `or` compiles iff every alternative does, to their predicates in order |
| CompileProperties.CompileAllFirstFault | index.js:47 | the first alternative that fails decides the error of `or` |
| CompileProperties.CompilePropsSucceedsIff | index.js:39-40 | `props` compiles iff each property's expression compiles against that property's schema |
| CompileProperties.CompilePropsFirstFault | index.js:39-40 | the first property expression that fails decides the error of `props` |
| CompileProperties.QuantifierSubExpressionFault | index.js:51-63 | under an identity type (a registered type other than `decimal`), `some`, `every` and `none` fail at compile time with the error of their nested expression, compiled against `schema.items` |
| CompileProperties.QuantifierCompiles | index.js:51-63 | under an identity type (a registered type other than `decimal`), `some`, `every` and `none` compile iff their nested expression compiles against `schema.items`, to the one test wrapping it |
| CompileProperties.OrAlternativeFault | index.js:46-47 | under an identity type (a registered type other than `decimal`), `or` fails at compile time with the error of its first failing alternative |
| CompileProperties.PropsSubExpressionFault | index.js:37-40 | under an identity type (a registered type other than `decimal`), `props` fails at compile time with the error of its first failing property expression |
| CompileProperties.NestedUnknownOperatorExample | index.js:40 | an unknown operator nested under `props` is reported when compiling |
| CompileProperties.CompilePropsSameSchemas | index.js:38-40 | `props` depends on the schema only through the per-property schemas it selects |
| CompileProperties.PropsSchemasOnlyForObjects | index.js:38 | a schema's `props` are ignored unless its type is "object" |
| CompileProperties.DecimalQuantifierOperand | index.js:99 | under `decimal` the object of `some`/`every`/`none` becomes NaN, so the nested expression is malformed; an object with an own `toString` raises a TypeError instead |
| CompileProperties.DecimalPropsOperand | index.js:99 | under `decimal` the object of `props` becomes NaN, leaving a `props` test without entries; an object with an own `toString` raises a TypeError instead |
| CompileProperties.DecimalOrOperand | index.js:99 | under `decimal` the array of `or` is converted too: `[]` becomes NaN, so `or` raises a TypeError; an array holding an object with an own `toString` raises a TypeError in conversion; any other non-empty array is Unsupported, because the number parseFloat makes of its joined text is not modelled (JavaScript would then raise a TypeError on that number) |
| EvalProperties.EvalTestsIff | index.js:104 | `every` over the tests is true iff all are true, and false iff some test is false after only true ones |
| EvalProperties.EvalTestsTrueIff | index.js:104 | `every` over the tests is true iff every test is true |
| EvalProperties.EvalTestsFalseIff | index.js:104 | `every` over the tests is false iff some test is false and every test before it is true |
| EvalProperties.FirstFalseTest | index.js:104 | when `every` over the tests is false, it yields the index of a false test preceded only by true ones |
| EvalProperties.FalseAfterTrueTests | index.js:104 | a false test preceded only by true ones makes `every` over the tests false |
| EvalProperties.EvalTestsAppend | index.js:104 | two lists of tests run one after the other |
| EvalProperties.EvalIsConjunction | index.js:102-105 | the predicate is true iff the candidate converts and every test holds on the converted candidate |
| EvalProperties.MoreEntriesNarrow | index.js:92-105 | an expression's predicate is the conjunction of the predicates of its two halves; adding entries keeps a false result false |
| EvalProperties.EmptyExpression | index.js:92-105 | `{}` compiles under every schema, and its predicate holds for every convertible candidate, null included; under an unknown type the error comes only at evaluation |
| EvalProperties.SingleTestEval | index.js:102-104 | under an identity type, a one-test predicate is that test applied to the candidate itself |
| EvalProperties.InclusiveComparisons | index.js:71-72 | `gte` is `gt` or `eq`, and `lte` is `lt` or `eq`, for comparable operands of the same kind, or with NaN on a side, or with undefined on exactly one side |
| EvalProperties.BothUndefinedInclusive | index.js:68-72 | the case InclusiveComparisons excludes: `undefined >= undefined` and `undefined <= undefined` are false, as are `>` and `<`, although `undefined === undefined` holds |
| EvalProperties.LeafOperatorMeaning | index.js:68-105 | under every registered type whose conversion of the test value succeeds, a one-entry leaf expression compiles to one test holding the test value converted at compile time; its predicate raises the candidate's conversion error, or else applies the operator's meaning (`EvalProperties.LeafMeaning`: `eq` is `===`, `gt`/`lt`/`gte`/`lte` hold for the comparison outcomes Greater, Less, Greater or Equal, Less or Equal and propagate a refused comparison's error, and `in` is `includes` on the test value) to the converted candidate and the converted test value |
| EvalProperties.ComparisonTests | index.js:69-72 | `gt`, `lt`, `gte` and `lte` raise iff the comparison is refused, and hold exactly for the outcomes they name |
| EvalProperties.MixedKindInclusive | index.js:71-72 | `null >= false` and `1 >= true` hold although neither `>` nor `===` does |
| EvalProperties.OrderingIsTotal | index.js:68-72 | on two numbers, strings, booleans or nulls exactly one of `gt`, `lt`, `eq` holds; numbers compare by value and strings lexicographically; `gt` is `lt` with the operands swapped |
| EvalProperties.InIsMembership | index.js:73 | `in` with an array test value is membership of the candidate |
| EvalProperties.DecimalSingleTest | index.js:102-104 | under `decimal`, a one-test predicate applies its test to the candidate's parsed value |
| EvalProperties.DecimalEquality | index.js:68 | under `decimal`, `eq` with a numeral holds of a numeral iff both denote the same number |
| EvalProperties.DecimalComparison | index.js:69-72 | under `decimal`, `gt`/`lt`/`gte`/`lte` compare numerals by value |
| EvalProperties.DecimalFilterExample | test.js:64-65 | with `{ eq: '123.0' }` under `decimal`, "123.00" and "123" are selected and "123.01" is not |
| EvalProperties.EvalPropsIff | index.js:41-43 | `props` holds iff each listed property's predicate holds on that property |
| EvalProperties.PropsReadOnlyListedKeys | index.js:41-43 | two candidates that agree on the listed keys give the same `props` result |
| EvalProperties.UnlistedPropertyIgnored | index.js:41-43 | adding an unlisted property to the candidate does not change the `props` result |
| EvalProperties.LookupAppend | index.js:41 | a field appended under another key does not change a property read |
| EvalProperties.SingleProp | index.js:37-43 | under an identity type (a registered type other than `decimal`), one-key `props` compiles its expression against that key's schema and evaluates it on the candidate's property, level by level |
| EvalProperties.MissingPropertyFailsEq | index.js:41 | a property the candidate lacks reads as undefined, which fails `eq` |
| EvalProperties.EvalAnyIff | index.js:48 | `or` is false iff every alternative is false, and, when none raises, true iff one is true |
| EvalProperties.EvalAnyFalseIff | index.js:48 | `or` is false iff every alternative is false |
| EvalProperties.EvalAnyTrueIff | index.js:48 | when no alternative raises, `or` is true iff some alternative is true |
| EvalProperties.SomeElementIff | index.js:53 | `some` is false iff no element satisfies the predicate, and, when none raises, true iff one does |
| EvalProperties.EveryElementIff | index.js:58 | `every` is true iff every element satisfies the predicate |
| EvalProperties.ArrayQuantifiers | index.js:53-63 | `none` is the negation of `some`; on an array `some` and `every` run over its elements; on an empty array `every` and `none` are true and `some` is false; on a non-array all three raise |
| EvalProperties.OrMeaning | index.js:46-48 | under an identity type (a registered type other than `decimal`), an `or` expression compiles its alternatives against `schema.items`, and is false iff every alternative is; when no alternative raises, it is true iff some alternative is |
| EvalProperties.EveryMeaning | index.js:56-58 | under an identity type (a registered type other than `decimal`), an `every` expression holds of an array iff each element satisfies the nested expression compiled against `schema.items` |
| EvalProperties.SomeAndNoneMeaning | index.js:51-63 | under an identity type (a registered type other than `decimal`), when the nested expression evaluates without error on every element, `some` holds iff an element satisfies it, and `none` iff no element does |
| Examples.EqUnderIdentity | index.js:68 | under an identity type, `eq` with a string compiles to strict equality with that string |
| Examples.ExactFractionRejected | index.js:20 | under `decimal`, `{ eq: '0.1' }` accepts '0.1' and rejects '0.' followed by any fraction of two or more digits ending in 1, such as '0.10000000000000001' |
| Examples.EqIsCaseSensitive | test.js:35 | `{ eq: 'JOE' }` rejects 'joe', where the test expects it to be accepted |
| Examples.TwoPropsCompile | index.js:39-40 | two `props` keys are each compiled against their own property's schema |
| Examples.PropsEntryCompiles | index.js:37-43 | a one-entry `props` expression compiles to a single `props` test |
| Examples.TwoFieldProperties | index.js:41 | each property of a two-property object reads as its own value |
| Examples.TwoPropsEval | index.js:41-43 | two-key `props` is true iff both properties' predicates hold |
| Examples.TwoPropsPredEval | index.js:41-43 | a two-key `props` predicate on a two-property object holds iff both properties' predicates do |
| Examples.PaymentCompiles | test.js:206-227 | with the schema keyed `props`, the payment expression compiles with currency as a string and amount as a decimal |
| Examples.CurrencyPredEval | test.js:214 | the compiled currency test selects exactly "GBP" |
| Examples.AmountPredEval | test.js:214 | the compiled decimal amount test selects exactly the numerals denoting 123 |
| Examples.PaymentEval | test.js:206-227 | with the schema keyed `props`, a payment is selected iff its currency is "GBP" and its amount is numerically 123 |
| Examples.SchemaFollowedDeeply | test.js:206-227 | with the schema keyed `props`, the two GBP payments of amount 123 are selected out of the four |
| Examples.WrittenSchemaCompiles | test.js:206-227 | with the schema keyed `properties`, as the test writes it, both properties compile under the default schema, as plain string equality |
| Examples.WrittenSchemaEval | test.js:206-227 | with the schema keyed `properties`, a payment is selected iff its currency is "GBP" and its amount is the string "123" |
| EvalProperties.OnePropCompiles | index.js:37-43 | under an identity type (a registered type other than `decimal`), a one-key `props` expression compiles to one property test whose predicate is the key's expression compiled against the key's schema |
| Examples.NestedPropsEval | test.js:193-200 | `{ props: { k1: { props: { k2: { eq: x } } } } }` holds of `{ k1: { k2: y } }` iff y is x |
| Examples.NestedPropsExample | test.js:193-200 | the two-level `props` on `foo.bar` selects `{ foo: { bar: 'yes' } }` and rejects `{ foo: { bar: 'no' } }` |
| Examples.WrittenSchemaSelectsNone | test.js:206-227 | with the schema keyed `properties`, none of the four payments is selected, where the test expects two |

Helper lemmas without a row support the lemmas listed above: they state one step of a listed proof
(one entry, one test or one property at a time) and model nothing beyond it. They are
`Compiler.PrefixStep`, `CompileProperties.PropsFactoryFault`, `EvalProperties.OnePropFactory`,
`EvalProperties.OneTestEval`, `EvalProperties.LeafCompiles`, `EvalProperties.NumberComparison`,
`EvalProperties.OnePropTestEval`, `EvalProperties.OrRunsAlternatives`, `EvalProperties.LeafTestMeaning`
(which unfolds a leaf test into `EvalProperties.LeafMeaning`), `EvalProperties.SomeOfArray`,
`EvalProperties.NoneOfArray`, `Numerals.NotOneTenth` and
`Numerals.LastDigitOne`. The remaining unlisted functions, predicates and lemmas of each module
(digit strings, powers of ten, string search and order, sizes, witnesses for the worked examples) are
the vocabulary and the steps these contracts are written with.

## Left out

- `parseFloat` beyond `[-]digits[.digits]` is `Unsupported`. That covers exponents, `Infinity`,
  leading whitespace, a leading `+` or `.`, and prefix parsing such as "12abc". Only the empty string and strings whose first character is printable ASCII other than a
  digit, `+`, `-`, `.` or `I` become NaN; other non-numerals (a first character that is white space,
  a control character or not ASCII) are `Unsupported`. Numbers stay numbers. Undefined, null,
  booleans, NaN, `[]` and objects without an own `toString` become NaN.
- Numbers are exact reals; IEEE-754 rounding is not modelled. A numeral keeps its exact value, however
  many digits it has, so `eq`, `gt`, `lt`, `gte` and `lte` on numerals beyond a double's precision may
  disagree with JavaScript. Under `decimal`, `{ eq: '0.1' }` rejects '0.10000000000000001', which
  JavaScript accepts because both strings round to the same double (`Examples.ExactFractionRejected`).
- Types.ParseFloatValue: `parseFloat` of a non-empty array (which goes through `String`) is
  `Unsupported`, unless an element at some depth is an object with an own `toString`, which raises a
  TypeError.
- Values.Compare: the comparison of a string with a number, boolean or null, and any comparison
  involving an object or array, is `Unsupported`, because the model does not compute those numeric or
  string conversions. Undefined or NaN on either side is unordered unless the other side's conversion
  throws (an object with an own `toString`, or an array holding one), which raises a TypeError.
- Values.ToStr: `String` of numbers, and of arrays holding no object with an own `toString`, is
  `Unsupported`.
- EvalProperties.InclusiveComparisons: stated only for operands of the same kind, or with NaN on a
  side, or with undefined on exactly one side. JavaScript's `>=` converts null and booleans to numbers
  while `===` does not, so the equivalence fails for mixed kinds (`EvalProperties.MixedKindInclusive`).
  It also fails when both sides are undefined: `undefined >= undefined` is false while
  `undefined === undefined` is true (`EvalProperties.BothUndefinedInclusive`).
- Strings are sequences of characters compared by code point. JavaScript compares UTF-16 code units,
  which differs for characters outside the Basic Multilingual Plane.
- Values.StrictEquals: `===` between two objects or arrays depends on reference identity, which the
  model does not track, so it is `Unsupported`.
- Values.SameValueZero: refuses two containers in the same way, for the same reason.
- Values.Includes: refuses a container candidate against a container element in the same way.
- Values.Property: inherited `Object.prototype` properties of a candidate (`value.toString`) and
  properties of candidates that are not plain objects are `Unsupported`: strings (`'abc'.length`),
  numbers and booleans, and arrays too (`[5]['0']`), although a JavaScript array is an object.
- A schema is modelled as a `type` that is a string or absent, plus `props` and `items`. A `null` schema
  and a non-string `type` are not modelled.
- A schema lookup of an `Object.prototype` key yields a schema without `type`. `schemas[key]` reads an
  inherited property there: a function, or `Object.prototype` itself for `__proto__`. Its `type` is
  undefined in either case.
- An object is an ordered list of fields. Its order is the order `Object.entries` exposes, which
  JavaScript fixes by key kind. The model assumes the keys of an object are distinct, and property
  reads take the first field with a key. JSON text may repeat a key; `JSON.parse` keeps the last
  value, so such input must have its duplicates removed before it is modelled.
- The `types` and `operators` tables are fixed. Adding entries to the exported Maps at run time is not
  modelled.
- Exception classes are modelled as error kinds with their message texts. Not modelled: `Error`
  subclassing, `constructor.name`, `instanceof`, and the export name `UnknownOperatorException` that
  test.js:5 imports as `UnknownOperatorError`.
- Calling the compiled predicate twice gives the same result, because `Eval` is a function. No separate
  lemma states this.
- The test harness itself (`check`, `pass`, `fail` and `Array.prototype.filter`) is not modelled. The
  examples state the predicate's result on each listed value.
