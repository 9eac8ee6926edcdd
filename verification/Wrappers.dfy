/** Optional values and failure-carrying results shared by every component. */
module Wrappers {

  datatype Option<+T> = None | Some(value: T)
  {
    predicate IsFailure() { None? }

    function PropagateFailure<U>(): Option<U>
      requires None?
    {
      None
    }

    function Extract(): T
      requires Some?
    {
      value
    }
  }

  datatype Result<+T, +E> = Success(value: T) | Failure(error: E)
  {
    predicate IsFailure() { Failure? }

    function PropagateFailure<U>(): Result<U, E>
      requires Failure?
    {
      Failure(error)
    }

    function Extract(): T
      requires Success?
    {
      value
    }
  }

  datatype Outcome<+E> = Pass | Fail(error: E)
  {
    predicate IsFailure() { Fail? }

    function PropagateFailure(): Outcome<E>
      requires Fail?
    {
      this
    }
  }

  /** Equality, without the verifier comparing the two values part by part. */
  ghost predicate Same<T(!new)>(a: T, b: T) { a == b }

  lemma Chain<T(!new)>(a: T, b: T, c: T)
    requires Same(a, b) && Same(b, c)
    ensures Same(a, c)
  {
  }

  lemma ConcatAssociates<T(!new)>(a: seq<T>, b: seq<T>, c: seq<T>)
    ensures Same(a + (b + c), (a + b) + c)
    ensures Same(a + [], a) && Same(b + [], b) && Same([] + a, a)
  {
    assert a + (b + c) == (a + b) + c && a + [] == a && b + [] == b && [] + a == a;
  }

  lemma ConcatHead<T(!new)>(a: seq<T>, b: seq<T>)
    requires a != []
    ensures (a + b)[0] == a[0] && Same((a + b)[1..], a[1..] + b) && a + b != []
  {
    assert (a + b)[1..] == a[1..] + b;
  }

  /** A growable buffer passed by reference, as the compiler passes `&mut Vec`. */
  class Vec<T> {
    var items: seq<T>

    constructor ()
      ensures items == []
    {
      items := [];
    }

    method Push(x: T)
      modifies this
      ensures items == old(items) + [x]
    {
      items := items + [x];
    }

    method Extend(xs: seq<T>)
      modifies this
      ensures items == old(items) + xs
    {
      items := items + xs;
    }
  }
}
