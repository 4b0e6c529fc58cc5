/** The two sequence shapes the projections build: an all-or-nothing map
    (a loop of `push_back` inside a `try` block: one element that throws
    discards everything) and the flattening of nested loops into one
    result vector. */
module Sequences {
  import opened Wrappers

  /** Applies `f` to every element in order; `None` as soon as one fails. */
  function MapAll<A, B>(xs: seq<A>, f: A -> Option<B>): (r: Option<seq<B>>)
    ensures r.Some? <==> forall i :: 0 <= i < |xs| ==> f(xs[i]).Some?
    ensures r.Some? ==> |r.value| == |xs| && forall i :: 0 <= i < |xs| ==> r.value[i] == f(xs[i]).value
  {
    if xs == [] then Some([])
    else
      var init := xs[..|xs| - 1];
      assert forall i :: 0 <= i < |init| ==> init[i] == xs[i];
      match MapAll(init, f)
      case None => None
      case Some(ys) =>
        match f(xs[|xs| - 1])
        case None => None
        case Some(y) => Some(ys + [y])
  }

  /** MapAll of a one-longer prefix extends MapAll of the prefix by one. */
  lemma MapAllSnoc<A, B>(xs: seq<A>, i: nat, f: A -> Option<B>, ys: seq<B>, y: B)
    requires i < |xs| && MapAll(xs[..i], f) == Some(ys) && f(xs[i]) == Some(y)
    ensures MapAll(xs[..i + 1], f) == Some(ys + [y])
  {
    assert xs[..i + 1][..i] == xs[..i];
  }

  /** MapAll succeeds with `ys` when `f` yields each element of `ys`. */
  lemma MapAllYields<A, B>(xs: seq<A>, f: A -> Option<B>, ys: seq<B>)
    requires |xs| == |ys| && forall i :: 0 <= i < |xs| ==> f(xs[i]) == Some(ys[i])
    ensures MapAll(xs, f) == Some(ys)
  {
    var r := MapAll(xs, f);
    assert r.Some?;
    assert r.value == ys;
  }

  /** One element that fails makes the whole map fail. */
  lemma MapAllFails<A, B>(xs: seq<A>, i: nat, f: A -> Option<B>)
    requires i < |xs| && f(xs[i]).None?
    ensures MapAll(xs, f).None?
  {
  }

  /** Concatenating one more part appends it. */
  lemma ConcatSnoc<T>(xss: seq<seq<T>>, xs: seq<T>)
    ensures Concat(xss + [xs]) == Concat(xss) + xs
  {
    assert (xss + [xs])[..|xss|] == xss;
  }

  /** The elements of `xss`, one sequence after the other. */
  function Concat<T>(xss: seq<seq<T>>): seq<T>
  {
    if xss == [] then [] else Concat(xss[..|xss| - 1]) + xss[|xss| - 1]
  }

  function SumLengths<T>(xss: seq<seq<T>>): nat
  {
    if xss == [] then 0 else SumLengths(xss[..|xss| - 1]) + |xss[|xss| - 1]|
  }

  lemma {:induction false} ConcatLength<T>(xss: seq<seq<T>>)
    ensures |Concat(xss)| == SumLengths(xss)
  {
    if xss != [] {
      ConcatLength(xss[..|xss| - 1]);
    }
  }

  /** Element `e` of part `g` sits after all the elements of the parts
      before it: the order is part by part, then element by element. */
  lemma {:induction false} ConcatIndex<T>(xss: seq<seq<T>>, g: nat, e: nat)
    requires g < |xss| && e < |xss[g]|
    ensures SumLengths(xss[..g]) + e < |Concat(xss)|
    ensures Concat(xss)[SumLengths(xss[..g]) + e] == xss[g][e]
  {
    var n := |xss| - 1;
    var init := xss[..n];
    ConcatLength(init);
    if g == n {
      assert xss[..g] == init;
    } else {
      assert init[..g] == xss[..g];
      ConcatIndex(init, g, e);
    }
  }
}
