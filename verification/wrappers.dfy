/** Failure-compatible wrappers, and the key orders of dictionaries, shared by every module of the model. */
module Wrappers {

  /** A value that may be absent: Python's None, JavaScript's undefined. */
  datatype Option<+T> = None | Some(value: T) {
    predicate IsFailure() { None? }

    function PropagateFailure<U>(): Option<U>
      requires None?
    {
      None
    }

    function Extract(): T
      requires Some?
    {
      value
    }

    function GetOr(default: T): T {
      match this
      case Some(v) => v
      case None => default
    }
  }

  /** The settled state of a promise or the outcome of a call that may raise. */
  datatype Result<+R, +E> = Success(value: R) | Failure(error: E) {
    predicate IsFailure() { Failure? }

    function PropagateFailure<U>(): Result<U, E>
      requires Failure?
    {
      Failure(error)
    }

    function Extract(): R
      requires Success?
    {
      value
    }
  }

  /**
   * `keys` lists every element of `s` exactly once: one possible order in which a Python
   * dict or a JavaScript `for-in` loop visits the keys `s`.
   */
  predicate IsEnumeration<T(==)>(keys: seq<T>, s: set<T>) {
    (forall i, j :: 0 <= i < j < |keys| ==> keys[i] != keys[j])
    && (forall k :: k in s ==> k in keys) && (forall i :: 0 <= i < |keys| ==> keys[i] in s)
  }
}
