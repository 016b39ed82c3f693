/**
 * The type registry: the converter each schema type name selects, and `convertTo`, which applies
 * the converter of a schema's `type` to a value or fails with "unknown type: <type>".
 *
 * `decimal` is `Number.parseFloat`, modelled as exact parsing of numerals of the form
 * `[-]digits[.digits]` into a real number; every other registered type is the identity.
 */
module Types {
  import opened Wrappers
  import opened Errors
  import opened Values

  datatype Converter = ParseFloat | Identity

  /** The registered type names, in the order of the table. */
  const TypeNames: seq<string> := ["decimal", "number", "string", "object", "array", "date", "any"]

  /** The converter registered under a type name, if any. */
  function LookupType(name: string): (r: Option<Converter>)
    ensures r.Some? <==> name in TypeNames
    ensures r == Some(ParseFloat) <==> name == "decimal"
  {
    if name == "decimal" then Some(ParseFloat)
    else if name in TypeNames then Some(Identity)
    else None
  }

  /** How an absent `type` property appears in the message: `'unknown type: ' + undefined`. */
  function TypeLabel(typ: Option<string>): string
  {
    match typ
    case None => "undefined"
    case Some(name) => name
  }

  /** The converter of a schema's `type`, where a missing `type` is looked up as undefined and is unknown. */
  function Resolve(typ: Option<string>): (r: Result<Converter, Fault>)
    ensures r.Ok? <==> typ.Some? && typ.value in TypeNames
    ensures r.Err? ==> r.error == UnknownType(TypeLabel(typ))
  {
    match typ
    case None => Err(UnknownType("undefined"))
    case Some(name) =>
      (match LookupType(name)
       case None => Err(UnknownType(name))
       case Some(c) => Ok(c))
  }

  predicate KnownType(typ: Option<string>)
  {
    Resolve(typ).Ok?
  }

  // ----- numerals -----

  predicate IsDigit(c: char)
  {
    '0' <= c <= '9'
  }

  predicate AllDigits(s: string)
  {
    forall i | 0 <= i < |s| :: IsDigit(s[i])
  }

  /** A non-empty run of decimal digits. */
  predicate IsDigits(s: string)
  {
    |s| > 0 && AllDigits(s)
  }

  /** The number a run of decimal digits denotes. */
  function DigitsValue(s: string): nat
    requires AllDigits(s)
  {
    if s == [] then 0 else 10 * DigitsValue(s[..|s| - 1]) + ((s[|s| - 1] as int) - ('0' as int))
  }

  function Pow10(k: nat): (p: nat)
    ensures p >= 1
  {
    if k == 0 then 1 else 10 * Pow10(k - 1)
  }

  /** The index of the first occurrence of c in s, or |s| when there is none. */
  function Find(s: string, c: char): (k: nat)
    ensures k <= |s|
    ensures k < |s| ==> s[k] == c
    ensures forall i | 0 <= i < k :: s[i] != c
  {
    if s == [] then 0 else if s[0] == c then 0 else 1 + Find(s[1..], c)
  }

  /** The number `whole.frac` where frac is written with the given number of digits. */
  function Decimal(whole: nat, frac: nat, digits: nat): real
  {
    whole as real + frac as real / Pow10(digits) as real
  }

  /** The shape `digits` or `digits.digits`. */
  predicate IsUnsignedNumeral(s: string)
  {
    IsDigits(s) || exists k | 0 <= k < |s| :: s[k] == '.' && IsDigits(s[..k]) && IsDigits(s[k + 1..])
  }

  /** The shape `[-]digits[.digits]`. */
  predicate IsNumeral(s: string)
  {
    IsUnsignedNumeral(s) || (|s| > 0 && s[0] == '-' && IsUnsignedNumeral(s[1..]))
  }

  /** A prefix of digits ends at or before the first character that is not a digit. */
  lemma DigitPrefixBound(s: string, k: nat, d: nat)
    requires k <= |s| && d < |s| && !IsDigit(s[d]) && AllDigits(s[..k])
    ensures k <= d
  {
  }

  /** Splitting at the first '.' accepts exactly the unsigned numerals. */
  lemma FirstDotSplit(s: string, d: nat)
    requires d == Find(s, '.')
    ensures IsUnsignedNumeral(s) <==>
      (d == |s| && IsDigits(s)) || (d < |s| && IsDigits(s[..d]) && IsDigits(s[d + 1..]))
  {
    if d < |s| {
      assert !IsDigit(s[d]);
      if IsUnsignedNumeral(s) {
        var k :| 0 <= k < |s| && s[k] == '.' && IsDigits(s[..k]) && IsDigits(s[k + 1..]);
        DigitPrefixBound(s, k, d);
      }
      if IsDigits(s[..d]) && IsDigits(s[d + 1..]) {
        assert s[d] == '.';
      }
    } else {
      assert forall k | 0 <= k < |s| :: s[k] != '.';
    }
  }

  /** `digits` or `digits.digits` as a real number. */
  function ParseUnsigned(s: string): (r: Option<real>)
    ensures r.Some? <==> IsUnsignedNumeral(s)
    ensures r.Some? ==> s != [] && IsDigit(s[0])
    ensures r.Some? ==> r.value >= 0.0
  {
    var d := Find(s, '.');
    FirstDotSplit(s, d);
    if d == |s| then
      if IsDigits(s) then Some(DigitsValue(s) as real) else None
    else if IsDigits(s[..d]) && IsDigits(s[d + 1..]) then
      Some(Decimal(DigitsValue(s[..d]), DigitsValue(s[d + 1..]), |s| - d - 1))
    else None
  }

  /** `[-]digits[.digits]` as a real number. */
  function ParseNumeral(s: string): (r: Option<real>)
    ensures r.Some? <==> IsNumeral(s)
    ensures r.Some? ==> s != [] && (IsDigit(s[0]) || s[0] == '-')
    ensures r.Some? && s[0] == '-' ==> r.value <= 0.0
    ensures r.Some? && s[0] != '-' ==> r.value >= 0.0
  {
    if |s| > 0 && s[0] == '-' then
      match ParseUnsigned(s[1..])
      case None => None
      case Some(x) => Some(-x)
    else ParseUnsigned(s)
  }

  /**
   * A string parseFloat certainly reads as NaN: empty, or beginning with a printable ASCII character
   * that can neither start a number nor be white space.
   */
  predicate NotANumeral(s: string)
  {
    s == [] || ('!' <= s[0] <= '~' && !IsDigit(s[0]) && s[0] !in "+-.I")
  }

  /**
   * `Number.parseFloat(v)`, which reads `String(v)`.  Forms the model does not parse (a numeral
   * prefix followed by other text, exponents, Infinity, leading white space, the string forms of
   * non-empty arrays) are Unsupported.  An object with an own `toString`, or an array holding one,
   * cannot be converted to a string, which throws.
   */
  function ParseFloatValue(v: Value): (r: Result<Value, Fault>)
    ensures v.Str? && ParseNumeral(v.s).Some? ==> r == Ok(Num(ParseNumeral(v.s).value))
    ensures v.Str? && NotANumeral(v.s) ==> r == Ok(NaN)
    ensures v.Num? ==> r == Ok(v)
    ensures v.Undef? || v.Null? || v.Bool? || v.NaN? || v == Arr([]) ==> r == Ok(NaN)
    ensures v.Obj? ==> r == if "toString" in Keys(v.fields) then Err(TypeError) else Ok(NaN)
    ensures v.Arr? && ToPrimitiveThrows(v) ==> r == Err(TypeError)
    ensures r == Err(Unsupported) <==>
      (v.Str? && ParseNumeral(v.s).None? && !NotANumeral(v.s)) || (v.Arr? && v.items != [] && !ToPrimitiveThrows(v))
    ensures r.Ok? ==> r.value.Num? || r.value.NaN?
  {
    match v
    case Str(s) =>
      (match ParseNumeral(s)
       case Some(x) => Ok(Num(x))
       case None => if NotANumeral(s) then Ok(NaN) else Err(Unsupported))
    case Num(_) => Ok(v)
    case Arr(items) => if items == [] then Ok(NaN) else if ToPrimitiveThrows(v) then Err(TypeError) else Err(Unsupported)
    case Obj(fields) => if "toString" in Keys(fields) then Err(TypeError) else Ok(NaN)
    case _ => Ok(NaN)
  }

  /** A value converted by the converter its schema's type names; an unknown or missing type is an error. */
  function ConvertTo(v: Value, typ: Option<string>): (r: Result<Value, Fault>)
    ensures r.Ok? ==> Size(r.value) <= Size(v)
    ensures !KnownType(typ) ==> r == Err(UnknownType(TypeLabel(typ)))
    ensures KnownType(typ) && typ != Some("decimal") ==> r == Ok(v)
    ensures typ == Some("decimal") ==> r == ParseFloatValue(v)
    ensures typ == Some("decimal") && v.Str? && ParseNumeral(v.s).Some? ==> r == Ok(Num(ParseNumeral(v.s).value))
  {
    match Resolve(typ)
    case Err(e) => Err(e)
    case Ok(Identity) => Ok(v)
    case Ok(ParseFloat) => ParseFloatValue(v)
  }
}
