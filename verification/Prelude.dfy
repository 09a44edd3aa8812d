/** Shared result types and the few sequence operations every component uses. */
module Prelude {

  datatype Option<+T> = None | Some(value: T)

  datatype Result<+T, +E> = Ok(value: T) | Err(error: E)

  function MinReal(a: real, b: real): real { if a <= b then a else b }

  function MaxReal(a: real, b: real): real { if a >= b then a else b }

  function MinInt(a: int, b: int): int { if a <= b then a else b }

  function MaxInt(a: int, b: int): int { if a >= b then a else b }

  /** `f` over a list, left to right. The recursion takes the last element so that a loop can follow it. */
  function MapSeq<A, B>(f: A -> B, xs: seq<A>): (ys: seq<B>)
    ensures |ys| == |xs|
    ensures forall i :: 0 <= i < |xs| ==> ys[i] == f(xs[i])
  {
    if xs == [] then [] else MapSeq(f, xs[..|xs| - 1]) + [f(xs[|xs| - 1])]
  }

  /** The defined values of `f` over a list, in order: what a "skip what does not parse" loop builds. */
  function Collect<A, B>(f: A -> Option<B>, xs: seq<A>): (ys: seq<B>)
  {
    if xs == [] then []
    else
      var ys := Collect(f, xs[..|xs| - 1]);
      match f(xs[|xs| - 1])
      case Some(y) => ys + [y]
      case None => ys
  }

  /** The loop behind every list parser: append what parses, skip the rest. */
  method Gather<A, B>(f: A -> Option<B>, xs: seq<A>) returns (ys: seq<B>)
    ensures ys == Collect(f, xs)
  {
    ys := [];
    for i := 0 to |xs|
      invariant ys == Collect(f, xs[..i])
    {
      assert xs[..i + 1][..i] == xs[..i];
      match f(xs[i]) {
        case Some(y) => ys := ys + [y];
        case None =>
      }
    }
    assert xs[..|xs|] == xs;
  }

  /** Collecting is total and order-preserving where every element parses. */
  lemma {:induction false} CollectAll<A, B>(f: A -> Option<B>, xs: seq<A>, ys: seq<B>)
    requires |xs| == |ys|
    requires forall i :: 0 <= i < |xs| ==> f(xs[i]) == Some(ys[i])
    ensures Collect(f, xs) == ys
  {
    if xs != [] {
      var n := |xs| - 1;
      CollectAll(f, xs[..n], ys[..n]);
      assert ys == ys[..n] + [ys[n]];
    }
  }

  /** Whatever holds of every parsed value holds of everything collected. */
  lemma {:induction false} CollectForall<A, B>(f: A -> Option<B>, xs: seq<A>, p: B -> bool)
    requires forall x :: x in xs && f(x).Some? ==> p(f(x).value)
    ensures forall y :: y in Collect(f, xs) ==> p(y)
  {
    if xs != [] {
      CollectForall(f, xs[..|xs| - 1], p);
    }
  }

  /** Position of the first element that satisfies `p`, or the length of the list. */
  function First<T>(p: T -> bool, xs: seq<T>): (i: nat)
    ensures i <= |xs|
    ensures i < |xs| ==> p(xs[i])
    ensures forall j :: 0 <= j < i ==> !p(xs[j])
  {
    if xs == [] || p(xs[0]) then 0 else 1 + First(p, xs[1..])
  }

  lemma FirstIs<T>(p: T -> bool, xs: seq<T>, i: nat)
    requires i <= |xs| && (i < |xs| ==> p(xs[i])) && forall j :: 0 <= j < i ==> !p(xs[j])
    ensures First(p, xs) == i
  {}

  /** The search loop. */
  method FindFirst<T>(p: T -> bool, xs: seq<T>) returns (i: nat)
    ensures i == First(p, xs)
  {
    i := 0;
    while i < |xs| && !p(xs[i])
      invariant i <= |xs| && forall j :: 0 <= j < i ==> !p(xs[j])
    {
      i := i + 1;
    }
    FirstIs(p, xs, i);
  }
}
