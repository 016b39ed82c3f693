/**
 * The errors a compilation or an evaluation can end with.
 *
 * The first three are the library's own error taxonomy: the SyntaxError raised for an expression
 * that is not an object, and the two exception classes UnknownOperatorException and
 * UnknownTypeException.  TypeError stands for the exception the JavaScript runtime raises when the
 * compiled code reads a property of null or calls a method a value does not have.  Unsupported marks
 * a behaviour of the JavaScript runtime that this model does not describe (see README).
 */
module Errors {

  datatype Fault =
    | Malformed
    | UnknownOperator(operator: string)
    | UnknownType(typeName: string)
    | TypeError
    | Unsupported
  {
    /** True for the errors the library raises itself, which carry a fixed message text. */
    predicate IsLibraryError()
    {
      Malformed? || UnknownOperator? || UnknownType?
    }

    /** The `message` of the error the library raises. */
    function Message(): (m: string)
      requires IsLibraryError()
      ensures Malformed? ==> m == "expression should be an object"
      ensures UnknownOperator? ==> |m| == 18 + |operator| && m[..18] == "unknown operator: " && m[18..] == operator
      ensures UnknownType? ==> |m| == 14 + |typeName| && m[..14] == "unknown type: " && m[14..] == typeName
    {
      match this
      case Malformed => "expression should be an object"
      case UnknownOperator(name) => "unknown operator: " + name
      case UnknownType(name) => "unknown type: " + name
    }
  }

  /** The message identifies the error: two library errors with the same message are the same error. */
  lemma MessageIdentifiesError(e1: Fault, e2: Fault)
    requires e1.IsLibraryError() && e2.IsLibraryError()
    requires e1.Message() == e2.Message()
    ensures e1 == e2
  {
    var m := e1.Message();
    forall e: Fault | e.IsLibraryError() && e.Message() == m
      ensures e.Malformed? <==> m[0] == 'e'
      ensures e.UnknownOperator? <==> m[0] == 'u' && m[8] == 'o'
      ensures e.UnknownType? <==> m[0] == 'u' && m[8] == 't'
    {
    }
    if e1.UnknownOperator? {
      assert e1.operator == m[18..] == e2.operator;
    } else if e1.UnknownType? {
      assert e1.typeName == m[14..] == e2.typeName;
    }
  }
}
