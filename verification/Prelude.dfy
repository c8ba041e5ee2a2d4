/** Small shared vocabulary: optional values, first-match lookup, real-number helpers. */
module Prelude {

  datatype Option<+T> = None | Some(value: T)

  function Min(a: nat, b: nat): nat {
    if a <= b then a else b
  }

  function MaxR(a: real, b: real): real {
    if a >= b then a else b
  }

  function MinR(a: real, b: real): real {
    if a <= b then a else b
  }

  function Abs(a: real): real {
    if a >= 0.0 then a else -a
  }

  function Clamp(value: real, low: real, high: real): real {
    MaxR(low, MinR(high, value))
  }

  /** Multiplication under a name, so that proofs can speak of products without computing them. */
  function Product(a: real, b: real): real {
    a * b
  }

  lemma ProductOrder(w: real, a: real, b: real)
    requires w >= 0.0 && a <= b
    ensures Product(w, a) <= Product(w, b)
  {
  }

  lemma ProductComplement(w: real, v: real)
    ensures Product(w, 1.0 - v) == w - Product(w, v)
  {
  }

  lemma PartOfWhole(w: real, v: real)
    requires w >= 0.0 && 0.0 <= v <= 1.0
    ensures 0.0 <= Product(w, v) <= w
  {
    ProductOrder(w, 0.0, v);
    ProductOrder(w, v, 1.0);
  }

  lemma DivisionOrder(a: real, b: real, total: real)
    requires total > 0.0
    ensures a <= b <==> a / total <= b / total
    ensures a <= b * total <==> a / total <= b
    ensures b * total <= a <==> b <= a / total
  {
    var qa, qb := a / total, b / total;
    assert a == qa * total && b == qb * total;
    if qa <= qb { assert (qb - qa) * total >= 0.0; } else { assert (qa - qb) * total > 0.0; }
    if qa <= b { assert (b - qa) * total >= 0.0; } else { assert (qa - b) * total > 0.0; }
  }

  /** The smallest index whose element satisfies `p`: what a lookup on ordered rows returns. */
  function FirstIndex<T>(xs: seq<T>, p: T -> bool): (r: Option<nat>)
    ensures r.None? <==> forall i :: 0 <= i < |xs| ==> !p(xs[i])
    ensures r.Some? ==> r.value < |xs| && p(xs[r.value]) && forall i :: 0 <= i < r.value ==> !p(xs[i])
  {
    if xs == [] then None
    else if p(xs[0]) then Some(0)
    else
      match FirstIndex(xs[1..], p)
      case None =>
        assert forall i :: 0 < i < |xs| ==> xs[i] == xs[1..][i - 1];
        None
      case Some(k) =>
        assert forall i :: 0 < i < |xs| ==> xs[i] == xs[1..][i - 1];
        Some(k + 1)
  }

  /** `take` on a query: the first `limit` rows. */
  function Take<T>(xs: seq<T>, limit: nat): (r: seq<T>)
    ensures |r| == Min(|xs|, limit) && r <= xs
    ensures forall x :: x in r ==> x in xs
  {
    xs[..Min(|xs|, limit)]
  }

  /** The results `f` gives, in order, leaving out the elements it drops. */
  function Collect<A, B>(xs: seq<A>, f: A -> Option<B>): seq<B> {
    if xs == [] then []
    else
      var before := Collect(xs[..|xs| - 1], f);
      var last := f(xs[|xs| - 1]);
      if last.Some? then before + [last.value] else before
  }

  predicate Yields<A, B(==)>(xs: seq<A>, f: A -> Option<B>, y: B) {
    exists i | 0 <= i < |xs| :: f(xs[i]) == Some(y)
  }

  lemma {:induction false} CollectHolds<A, B>(xs: seq<A>, f: A -> Option<B>, y: B)
    ensures y in Collect(xs, f) <==> Yields(xs, f, y)
    decreases |xs|
  {
    if xs != [] {
      var n := |xs| - 1;
      CollectHolds(xs[..n], f, y);
      if Yields(xs, f, y) {
        var i :| 0 <= i < |xs| && f(xs[i]) == Some(y);
        if i < n { assert xs[..n][i] == xs[i]; }
      }
      if Yields(xs[..n], f, y) {
        var i :| 0 <= i < n && f(xs[..n][i]) == Some(y);
        assert xs[i] == xs[..n][i];
      }
    }
  }
}
