/**
 * The values an expression, a test value and a candidate are made of: the JavaScript values a
 * decoded JSON document consists of, plus `undefined` (what reading a missing property yields) and
 * NaN (what `Number.parseFloat` yields for a string that is not a number).
 *
 * The module also holds the pieces of JavaScript semantics the compiled predicates rely on:
 * strict equality `===`, the relational operators, `Array.prototype.includes`,
 * `String.prototype.includes` and property access `value[key]`.
 */
module Values {
  import opened Wrappers
  import opened Errors

  datatype Value =
    | Undef
    | Null
    | Bool(b: bool)
    | Num(n: real)
    | NaN
    | Str(s: string)
    | Arr(items: seq<Value>)
    | Obj(fields: seq<Field>)

  /** One own enumerable property of an object, in the order `Object.entries` lists them. */
  datatype Field = Field(key: string, val: Value)

  predicate IsContainer(v: Value)
  {
    v.Arr? || v.Obj?
  }

  /** The keys of an object's fields, in order. */
  function Keys(fields: seq<Field>): (ks: seq<string>)
    ensures |ks| == |fields|
    ensures forall i | 0 <= i < |fields| :: ks[i] == fields[i].key
  {
    if fields == [] then [] else [fields[0].key] + Keys(fields[1..])
  }

  /**
   * Whether converting v to a primitive throws a TypeError.  An own `toString` of a JSON object is
   * never callable, and the inherited `valueOf` returns the object itself, so no primitive is found;
   * an array converts by joining the string forms of its elements, so it throws when an element does.
   */
  predicate ToPrimitiveThrows(v: Value)
  {
    match v
    case Obj(fields) => "toString" in Keys(fields)
    case Arr(items) => exists i | 0 <= i < |items| :: ToPrimitiveThrows(items[i])
    case _ => false
  }

  // ----- size, the measure compilation decreases -----

  function Size(v: Value): (n: nat)
    ensures n >= 1
  {
    match v
    case Arr(items) => 1 + ItemsSize(items)
    case Obj(fields) => 1 + FieldsSize(fields)
    case _ => 1
  }

  function ItemsSize(items: seq<Value>): nat
  {
    if items == [] then 0 else Size(items[0]) + ItemsSize(items[1..])
  }

  function FieldsSize(fields: seq<Field>): nat
  {
    if fields == [] then 0 else Size(fields[0].val) + FieldsSize(fields[1..])
  }

  // ----- equality -----

  /**
   * `a === b`.  Two containers are equal only when they are the same object; the model does not
   * track object identity, so that case is Unsupported.  NaN is not equal to anything, itself included.
   */
  function StrictEquals(a: Value, b: Value): (r: Result<bool, Fault>)
    ensures r.Ok? <==> !(IsContainer(a) && IsContainer(b))
    ensures r == Ok(true) ==> a == b
    ensures a.NaN? || b.NaN? ==> r == Ok(false)
    ensures a == b && !a.NaN? && !IsContainer(a) ==> r == Ok(true)
  {
    if IsContainer(a) && IsContainer(b) then Err(Unsupported)
    else Ok(a == b && !a.NaN?)
  }

  /** SameValueZero, the equality `Array.prototype.includes` uses: like `===`, except that NaN equals NaN. */
  function SameValueZero(a: Value, b: Value): (r: Result<bool, Fault>)
    ensures r.Ok? <==> !(IsContainer(a) && IsContainer(b))
    ensures r.Ok? ==> (r.value <==> a == b)
    ensures a.NaN? && b.NaN? ==> r == Ok(true)
  {
    if IsContainer(a) && IsContainer(b) then Err(Unsupported)
    else Ok(a == b)
  }

  // ----- ordering -----

  /** Lexicographic ordering of strings: a proper prefix comes first. */
  predicate StrLess(a: string, b: string)
  {
    if a == [] then b != []
    else if b == [] then false
    else if a[0] != b[0] then a[0] < b[0]
    else StrLess(a[1..], b[1..])
  }

  lemma {:induction false} StrLessIrreflexive(a: string)
    ensures !StrLess(a, a)
  {
    if a != [] {
      StrLessIrreflexive(a[1..]);
    }
  }

  lemma {:induction false} StrLessAsymmetric(a: string, b: string)
    requires StrLess(a, b)
    ensures !StrLess(b, a)
  {
    if a != [] && b != [] && a[0] == b[0] {
      StrLessAsymmetric(a[1..], b[1..]);
    }
  }

  lemma {:induction false} StrLessTransitive(a: string, b: string, c: string)
    requires StrLess(a, b) && StrLess(b, c)
    ensures StrLess(a, c)
  {
    if a != [] && b != [] && c != [] && a[0] == b[0] && b[0] == c[0] {
      StrLessTransitive(a[1..], b[1..], c[1..]);
    }
  }

  /** Of two strings, exactly one is less than the other, or they are equal. */
  lemma StrLessTrichotomy(a: string, b: string)
    ensures StrLess(a, b) ==> !StrLess(b, a) && a != b
    ensures !StrLess(a, b) && a != b ==> StrLess(b, a)
  {
    StrLessIrreflexive(a);
    if StrLess(a, b) {
      StrLessAsymmetric(a, b);
    } else if a != b {
      StrLessTotal(a, b);
    }
  }

  lemma {:induction false} StrLessTotal(a: string, b: string)
    requires a != b
    ensures StrLess(a, b) || StrLess(b, a)
  {
    if a != [] && b != [] && a[0] == b[0] {
      assert a == [a[0]] + a[1..] && b == [b[0]] + b[1..];
      StrLessTotal(a[1..], b[1..]);
    }
  }

  /**
   * How the relational operators see two operands.  Unordered: every one of `<`, `>`, `<=`, `>=`
   * is false, which is the case as soon as one operand is NaN or undefined (both become NaN in the
   * numeric comparison).
   */
  datatype Ordering = Less | Equal | Greater | Unordered

  /** The same comparison with the operands swapped. */
  function Flip(o: Ordering): Ordering
  {
    match o
    case Less => Greater
    case Greater => Less
    case _ => o
  }

  /** `ToNumber` of the primitives whose numeric value is exact: null is 0, false 0, true 1. */
  function ToNumber(v: Value): Option<real>
  {
    match v
    case Null => Some(0.0)
    case Bool(b) => Some(if b then 1.0 else 0.0)
    case Num(n) => Some(n)
    case _ => None
  }

  function RealOrder(x: real, y: real): (o: Ordering)
    ensures o == Less <==> x < y
    ensures o == Equal <==> x == y
    ensures o == Greater <==> x > y
  {
    if x < y then Less else if x == y then Equal else Greater
  }

  /**
   * The abstract relational comparison: both operands are first converted to primitives, which
   * throws for an object with an own `toString`; then two strings compare lexicographically, and
   * otherwise both operands become numbers, where NaN and undefined make the pair Unordered.  The
   * operands whose numeric form the model does not compute (strings against numbers, booleans and
   * null; objects and arrays against anything but undefined and NaN) are Unsupported.
   */
  function Compare(a: Value, b: Value): (r: Result<Ordering, Fault>)
    ensures ToPrimitiveThrows(a) || ToPrimitiveThrows(b) ==> r == Err(TypeError)
    ensures !ToPrimitiveThrows(a) && !ToPrimitiveThrows(b) && (a.Undef? || a.NaN? || b.Undef? || b.NaN?) ==>
      r == Ok(Unordered)
    ensures a.Str? && b.Str? ==>
      r.Ok? && (r.value == Less <==> StrLess(a.s, b.s)) && (r.value == Equal <==> a == b) &&
      (r.value == Greater <==> StrLess(b.s, a.s))
    ensures ToNumber(a).Some? && ToNumber(b).Some? ==> r == Ok(RealOrder(ToNumber(a).value, ToNumber(b).value))
    ensures r.Ok? <==>
      !ToPrimitiveThrows(a) && !ToPrimitiveThrows(b) &&
      (a.Undef? || a.NaN? || b.Undef? || b.NaN? || (a.Str? && b.Str?) || (ToNumber(a).Some? && ToNumber(b).Some?))
  {
    if ToPrimitiveThrows(a) || ToPrimitiveThrows(b) then Err(TypeError)
    else if a.Undef? || a.NaN? || b.Undef? || b.NaN? then Ok(Unordered)
    else if a.Str? && b.Str? then
      StrLessIrreflexive(a.s);
      StrLessTrichotomy(a.s, b.s);
      Ok(if StrLess(a.s, b.s) then Less else if a.s == b.s then Equal else Greater)
    else if ToNumber(a).Some? && ToNumber(b).Some? then
      Ok(RealOrder(ToNumber(a).value, ToNumber(b).value))
    else Err(Unsupported)
  }

  /** Comparing b with a flips the comparison of a with b. */
  lemma CompareFlip(a: Value, b: Value)
    ensures Compare(a, b).Ok? <==> Compare(b, a).Ok?
    ensures Compare(a, b).Ok? ==> Compare(b, a).value == Flip(Compare(a, b).value)
    ensures Compare(a, b).Err? ==> Compare(b, a) == Compare(a, b)
  {
    if a.Str? && b.Str? && !a.Undef? {
      if a.s == b.s {
        StrLessIrreflexive(a.s);
      } else {
        StrLessTotal(a.s, b.s);
        if StrLess(a.s, b.s) {
          StrLessAsymmetric(a.s, b.s);
        } else {
          StrLessAsymmetric(b.s, a.s);
        }
      }
    }
  }

  // ----- includes -----

  /** `items.includes(v)`: stops at the first element SameValueZero-equal to v. */
  function Includes(items: seq<Value>, v: Value): (r: Result<bool, Fault>)
    ensures !IsContainer(v) ==> r == Ok(v in items)
    ensures v in items && r.Ok? ==> r.value
  {
    if items == [] then Ok(false)
    else match SameValueZero(items[0], v)
      case Err(e) => Err(e)
      case Ok(true) => Ok(true)
      case Ok(false) => Includes(items[1..], v)
  }

  /** True when t occurs in s as a contiguous substring. */
  predicate Contains(s: string, t: string)
  {
    t <= s || (s != [] && Contains(s[1..], t))
  }

  /**
   * `String(v)`, for the values whose string form the model describes.  An object converts through
   * its `toString` method; an own `toString` property of a JSON object is never callable, and the
   * `valueOf` it then falls back to returns the object itself, so the conversion throws.
   */
  function ToStr(v: Value): (r: Result<string, Fault>)
    ensures v.Str? ==> r == Ok(v.s)
    ensures v.Obj? ==> r == if "toString" in Keys(v.fields) then Err(TypeError) else Ok("[object Object]")
    ensures v.Undef? ==> r == Ok("undefined")
    ensures v.Null? ==> r == Ok("null")
    ensures v.Bool? ==> r == Ok(if v.b then "true" else "false")
    ensures v.NaN? ==> r == Ok("NaN")
    ensures r == Err(TypeError) <==> ToPrimitiveThrows(v)
    ensures r == Err(Unsupported) <==> v.Num? || (v.Arr? && !ToPrimitiveThrows(v))
  {
    match v
    case Undef => Ok("undefined")
    case Null => Ok("null")
    case Bool(b) => Ok(if b then "true" else "false")
    case NaN => Ok("NaN")
    case Str(s) => Ok(s)
    case Obj(fields) => if "toString" in Keys(fields) then Err(TypeError) else Ok("[object Object]")
    case Arr(_) => if ToPrimitiveThrows(v) then Err(TypeError) else Err(Unsupported)
    case _ => Err(Unsupported)
  }

  // ----- property access -----

  /** The value of the first field named key, if any. */
  function Lookup(fields: seq<Field>, key: string): (r: Option<Value>)
    ensures r.None? <==> key !in Keys(fields)
    ensures r.Some? ==> exists i | 0 <= i < |fields| :: fields[i].key == key && fields[i].val == r.value
    ensures r.Some? ==> Field(key, r.value) in fields
  {
    if fields == [] then None
    else if fields[0].key == key then Some(fields[0].val)
    else Lookup(fields[1..], key)
  }

  /** The properties every object inherits from Object.prototype. */
  const PrototypeKeys: set<string> := {
    "constructor", "hasOwnProperty", "isPrototypeOf", "propertyIsEnumerable", "toLocaleString",
    "toString", "valueOf", "__proto__", "__defineGetter__", "__defineSetter__",
    "__lookupGetter__", "__lookupSetter__"
  }

  /**
   * `v[key]`: a TypeError on null and undefined; an object's own property, or undefined when it has
   * none.  Inherited properties and the properties of other values are Unsupported.
   */
  function Property(v: Value, key: string): (r: Result<Value, Fault>)
    ensures v.Null? || v.Undef? ==> r == Err(TypeError)
    ensures v.Obj? && key in Keys(v.fields) ==> r.Ok? && Field(key, r.value) in v.fields
    ensures v.Obj? && key in Keys(v.fields) ==> r == Ok(Lookup(v.fields, key).value)
    ensures v.Obj? && key !in Keys(v.fields) ==> r == if key in PrototypeKeys then Err(Unsupported) else Ok(Undef)
    ensures !v.Obj? && !v.Null? && !v.Undef? ==> r == Err(Unsupported)
  {
    match v
    case Null => Err(TypeError)
    case Undef => Err(TypeError)
    case Obj(fields) =>
      (match Lookup(fields, key)
       case Some(x) => Ok(x)
       case None => if key in PrototypeKeys then Err(Unsupported) else Ok(Undef))
    case _ => Err(Unsupported)
  }

  // ----- the entries of an array -----

  function DigitChar(d: nat): char
    requires d < 10
  {
    (('0' as int) + d) as char
  }

  /** The decimal representation of n, as `String(n)` writes an array index. */
  function NatToString(n: nat): (s: string)
    ensures |s| >= 1
    ensures forall i | 0 <= i < |s| :: '0' <= s[i] <= '9'
  {
    if n < 10 then [DigitChar(n)] else NatToString(n / 10) + [DigitChar(n % 10)]
  }

  /** `Object.entries(items)` for the elements from index start on: each element under its index as key. */
  function IndexedFields(items: seq<Value>, start: nat): (fields: seq<Field>)
    ensures |fields| == |items|
    ensures forall i | 0 <= i < |items| :: fields[i] == Field(NatToString(start + i), items[i])
    ensures FieldsSize(fields) == ItemsSize(items)
  {
    if items == [] then [] else [Field(NatToString(start), items[0])] + IndexedFields(items[1..], start + 1)
  }
}
