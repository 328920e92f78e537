/** Option, the conventional stand-in for `undefined`/`null` in the modelled code. */
module Wrappers {

  datatype Option<+T> = None | Some(value: T) {

    predicate IsFailure() {
      None?
    }

    function PropagateFailure<U>(): Option<U>
      requires None?
    {
      None
    }

    function Extract(): T
      requires Some?
    {
      value
    }

    /** The `??` operator: the value, or `default` when there is none. */
    function GetOr(default: T): T {
      match this
      case Some(v) => v
      case None => default
    }
  }

  /** A value, or the error the source would throw instead. */
  datatype Result<+T, +E> = Ok(value: T) | Err(error: E)

  /** JavaScript truthiness of an optional string: present and non-empty. */
  predicate Truthy(s: Option<string>) {
    s.Some? && s.value != ""
  }

  /** The `a || b` operator on optional strings. */
  function OrElse(a: Option<string>, b: Option<string>): (r: Option<string>)
    ensures Truthy(a) ==> r == a
    ensures !Truthy(a) ==> r == b
  {
    if Truthy(a) then a else b
  }

  /** A chain `a || b || c` returns its first truthy operand, else its last one, however it is grouped. */
  lemma OrElseChain(a: Option<string>, b: Option<string>, c: Option<string>)
    ensures OrElse(OrElse(a, b), c) == OrElse(a, OrElse(b, c))
    ensures OrElse(OrElse(a, b), c) == if Truthy(a) then a else if Truthy(b) then b else c
    ensures Truthy(OrElse(OrElse(a, b), c)) <==> Truthy(a) || Truthy(b) || Truthy(c)
  {
  }
}
