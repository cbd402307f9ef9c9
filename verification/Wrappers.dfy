/** Failure-compatible results, used wherever the program raises or refuses. */
module Wrappers {
  datatype Option<+T> = None | Some(value: T)

  datatype Result<+T, +E> = Success(value: T) | Failure(error: E) {
    predicate IsFailure() {
      Failure?
    }

    function PropagateFailure<U>(): Result<U, E>
      requires Failure?
    {
      Failure(error)
    }

    function Extract(): T
      requires Success?
    {
      value
    }
  }

  /** A check that either passes or refuses with a reason. */
  datatype Check<+E> = Pass | Refuse(reason: E) {
    predicate IsFailure() {
      Refuse?
    }

    function PropagateFailure<U>(): Result<U, E>
      requires Refuse?
    {
      Failure(reason)
    }
  }

  function Need<E>(condition: bool, reason: E): Check<E> {
    if condition then Pass else Refuse(reason)
  }

  function Max(a: int, b: int): int {
    if a < b then b else a
  }

  function Min(a: int, b: int): int {
    if a < b then a else b
  }

  /** The elements of a finite set, in some order. */
  method Listed(s: set<int>) returns (list: seq<int>)
    ensures forall x :: x in list <==> x in s
  {
    var left := s;
    list := [];
    while exists x :: x in left
      invariant left <= s
      invariant forall x :: x in list <==> x in s - left
      decreases |left|
    {
      var x :| x in left;
      list := list + [x];
      left := left - {x};
    }
  }
}
