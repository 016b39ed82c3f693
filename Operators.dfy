/**
 * The operator registry: the eleven operator names an expression may use.  The six leaf operators
 * compare the candidate with a test value; the five combinators compile nested expressions.
 */
module Operators {
  import opened Wrappers

  datatype Operator = Eq | Gt | Lt | Gte | Lte | In | Or | SomeOf | EveryOf | NoneOf | Props
  {
    /** The key that selects this operator in an expression. */
    function Name(): string
    {
      match this
      case Eq => "eq"
      case Gt => "gt"
      case Lt => "lt"
      case Gte => "gte"
      case Lte => "lte"
      case In => "in"
      case Or => "or"
      case SomeOf => "some"
      case EveryOf => "every"
      case NoneOf => "none"
      case Props => "props"
    }

    /** The operators whose factories re-enter the compiler. */
    predicate IsCombinator()
    {
      Or? || SomeOf? || EveryOf? || NoneOf? || Props?
    }
  }

  /** The operator registered under name, if any. */
  function Lookup(name: string): (r: Option<Operator>)
    ensures r.Some? ==> r.value.Name() == name
    ensures r.None? <==> forall op: Operator :: op.Name() != name
  {
    match name
    case "eq" => Some(Eq)
    case "gt" => Some(Gt)
    case "lt" => Some(Lt)
    case "gte" => Some(Gte)
    case "lte" => Some(Lte)
    case "in" => Some(In)
    case "or" => Some(Or)
    case "some" => Some(SomeOf)
    case "every" => Some(EveryOf)
    case "none" => Some(NoneOf)
    case "props" => Some(Props)
    case _ => None
  }

  /** Every operator is found under its own name: the registry holds no two operators with one name. */
  lemma LookupName(op: Operator)
    ensures Lookup(op.Name()) == Some(op)
  {
  }
}
