/** Option and Result: the "value or undefined" and "value or thrown error" shapes of the source. */
module Wrappers {

  datatype Option<+T> = None | Some(value: T) {
    function GetOr(default: T): T {
      match this
      case Some(v) => v
      case None => default
    }
  }

  /** A value, or the error a call throws; `:-` propagates the error as a `throw` would. */
  datatype Result<+T, +E> = Success(value: T) | Failure(error: E) {
    predicate IsFailure() {
      Failure?
    }

    function PropagateFailure<U>(): Result<U, E>
      requires Failure?
    {
      Failure(this.error)
    }

    function Extract(): T
      requires Success?
    {
      value
    }
  }

  /** `xs.map(f)` where `f` may throw: the first error thrown, or every result in order. */
  function TryMap<A, B, E>(xs: seq<A>, f: A -> Result<B, E>): (r: Result<seq<B>, E>)
    ensures r.Success? <==> forall i :: 0 <= i < |xs| ==> f(xs[i]).Success?
    ensures r.Success? ==> |r.value| == |xs| && forall i :: 0 <= i < |xs| ==> r.value[i] == f(xs[i]).value
  {
    if xs == [] then Success([])
    else
      var head :- f(xs[0]);
      var tail :- TryMap(xs[1..], f);
      assert forall i :: 1 <= i < |xs| ==> xs[i] == xs[1..][i - 1];
      Success([head] + tail)
  }

  /** A map that succeeds element by element succeeds with those elements. */
  lemma TryMapPointwise<A, B, E>(xs: seq<A>, f: A -> Result<B, E>, ys: seq<B>)
    requires |xs| == |ys|
    requires forall i :: 0 <= i < |xs| ==> f(xs[i]) == Success(ys[i])
    ensures TryMap(xs, f) == Success(ys)
  {
    var r := TryMap(xs, f);
    assert r.Success?;
    assert r.value == ys;
  }
}
