/** Option and Result, the failure-compatible wrappers the model uses for
    Kotlin's nullable values and for the exceptions the parser throws, and
    MapAll, which applies a failing function to every element of a sequence
    in order and stops at the first failure. */
module Wrappers {

  datatype Option<+T> = None | Some(value: T) {
    function GetOr(default: T): T {
      match this
      case Some(v) => v
      case None => default
    }
  }

  datatype Result<+R, +E> = Success(value: R) | Failure(error: E) {
    predicate IsFailure() {
      Failure?
    }

    function PropagateFailure<U>(): Result<U, E>
      requires Failure?
    {
      Failure(error)
    }

    function Extract(): R
      requires Success?
    {
      value
    }
  }

  /** Applies `f` to the elements of `xs` from left to right, as a Kotlin
      `for` loop that appends to a mutable list does; the first failure
      aborts the whole traversal. Defined on the last element so that a loop
      over a growing prefix follows it step by step. */
  function MapAll<A, B, E>(xs: seq<A>, f: A -> Result<B, E>): Result<seq<B>, E>
    decreases |xs|
  {
    if |xs| == 0 then Success([])
    else
      var init :- MapAll(xs[..|xs| - 1], f);
      var last :- f(xs[|xs| - 1]);
      Success(init + [last])
  }

  /** A successful traversal keeps every element, in order. */
  lemma {:induction false} MapAllSuccess<A, B, E>(xs: seq<A>, f: A -> Result<B, E>)
    requires MapAll(xs, f).Success?
    ensures |MapAll(xs, f).value| == |xs|
    ensures forall j :: 0 <= j < |xs| ==> f(xs[j]) == Success(MapAll(xs, f).value[j])
    decreases |xs|
  {
    if |xs| > 0 {
      var init := xs[..|xs| - 1];
      MapAllSuccess(init, f);
      assert forall j :: 0 <= j < |init| ==> xs[j] == init[j];
    }
  }

  /** The traversal fails exactly when some element fails, and then with the
      error of the first element that fails. */
  lemma {:induction false} MapAllFailure<A, B, E>(xs: seq<A>, f: A -> Result<B, E>)
    ensures MapAll(xs, f).Failure? <==> exists j :: 0 <= j < |xs| && f(xs[j]).Failure?
    ensures MapAll(xs, f).Failure? ==>
      exists j :: 0 <= j < |xs| && f(xs[j]).Failure? && MapAll(xs, f).error == f(xs[j]).error &&
        forall k :: 0 <= k < j ==> f(xs[k]).Success?
    decreases |xs|
  {
    if |xs| > 0 {
      var init := xs[..|xs| - 1];
      MapAllFailure(init, f);
      assert forall j :: 0 <= j < |init| ==> xs[j] == init[j];
      if MapAll(init, f).Success? {
        MapAllSuccess(init, f);
      }
    }
  }

  /** Once a prefix fails, the whole traversal fails with the same error: a
      loop may stop at the first failure. */
  lemma {:induction false} MapAllPrefixFailure<A, B, E>(xs: seq<A>, f: A -> Result<B, E>, n: nat)
    requires n <= |xs|
    requires MapAll(xs[..n], f).Failure?
    ensures MapAll(xs, f) == MapAll(xs[..n], f)
    decreases |xs| - n
  {
    if n < |xs| {
      assert xs[..n + 1][..n] == xs[..n];
      MapAllPrefixFailure(xs, f, n + 1);
    } else {
      assert xs[..n] == xs;
    }
  }
}
