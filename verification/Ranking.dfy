/** A stable descending sort by score, cut to the first `k`: how memory queries and suggestions rank. */
module Ranking {

  /** A higher score comes first; on equal scores the earlier candidate does. */
  predicate Before(scores: seq<real>, i: nat, j: nat)
    requires i < |scores| && j < |scores|
  {
    scores[i] > scores[j] || (scores[i] == scores[j] && i < j)
  }

  predicate InRange(scores: seq<real>, order: seq<nat>) {
    forall x :: 0 <= x < |order| ==> order[x] < |scores|
  }

  /** Inserts candidate `i`, which precedes all of `order`, as a stable sort does. */
  function Place(scores: seq<real>, i: nat, order: seq<nat>): (r: seq<nat>)
    requires i < |scores| && InRange(scores, order)
    ensures InRange(scores, r) && |r| == |order| + 1
  {
    if order == [] || scores[order[0]] <= scores[i] then [i] + order
    else [order[0]] + Place(scores, i, order[1..])
  }

  function OrderFrom(scores: seq<real>, i: nat): (r: seq<nat>)
    requires i <= |scores|
    ensures InRange(scores, r) && |r| == |scores| - i
    decreases |scores| - i
  {
    if i == |scores| then [] else Place(scores, i, OrderFrom(scores, i + 1))
  }

  function Min(a: nat, b: nat): nat { if a < b then a else b }

  /** The positions of the best `k` candidates, best first. */
  function TopK(scores: seq<real>, k: nat): (r: seq<nat>)
    ensures |r| == Min(k, |scores|) && InRange(scores, r)
  {
    OrderFrom(scores, 0)[..Min(k, |scores|)]
  }

  ghost predicate Ordered(scores: seq<real>, order: seq<nat>)
    requires InRange(scores, order)
  {
    forall x, y :: 0 <= x < y < |order| ==> Before(scores, order[x], order[y])
  }

  lemma {:induction false} PlaceOrdered(scores: seq<real>, i: nat, order: seq<nat>)
    requires i < |scores| && InRange(scores, order) && Ordered(scores, order)
    requires forall x :: 0 <= x < |order| ==> i < order[x]
    ensures Ordered(scores, Place(scores, i, order))
    ensures forall n: nat :: n in Place(scores, i, order) <==> n == i || n in order
  {
    if order != [] && scores[order[0]] > scores[i] {
      PlaceOrdered(scores, i, order[1..]);
      var rest := Place(scores, i, order[1..]);
      forall y | 0 <= y < |rest|
        ensures Before(scores, order[0], rest[y])
      {
        assert rest[y] in rest;
      }
      assert order == [order[0]] + order[1..];
    }
  }

  lemma {:induction false} OrderFromOrdered(scores: seq<real>, i: nat)
    requires i <= |scores|
    ensures Ordered(scores, OrderFrom(scores, i))
    ensures forall n: nat :: n in OrderFrom(scores, i) <==> i <= n < |scores|
    decreases |scores| - i
  {
    if i < |scores| {
      OrderFromOrdered(scores, i + 1);
      var rest := OrderFrom(scores, i + 1);
      forall x | 0 <= x < |rest|
        ensures i < rest[x]
      {
        assert rest[x] in rest;
      }
      PlaceOrdered(scores, i, rest);
    }
  }

  /** The ranked list: in order, of the right length, and nothing left out beats anything kept. */
  ghost predicate IsTopK(scores: seq<real>, k: nat, r: seq<nat>) {
    && |r| == Min(k, |scores|)
    && InRange(scores, r)
    && Ordered(scores, r)
    && forall x, n: nat :: 0 <= x < |r| && n < |scores| && n !in r ==> Before(scores, r[x], n)
  }

  lemma TopKIsTopK(scores: seq<real>, k: nat)
    ensures IsTopK(scores, k, TopK(scores, k))
  {
    OrderFromOrdered(scores, 0);
    var all, r := OrderFrom(scores, 0), TopK(scores, k);
    forall x, n: nat | 0 <= x < |r| && n < |scores| && n !in r
      ensures Before(scores, r[x], n)
    {
      assert n in all;
      assert forall y :: 0 <= y < |r| ==> r[y] in r;
      var y :| 0 <= y < |all| && all[y] == n;
    }
  }

  /** The ranked list is the only one: scores and arrival order fix it completely. */
  lemma {:induction false} TopKUnique(scores: seq<real>, k: nat, a: seq<nat>, b: seq<nat>, n: nat)
    requires IsTopK(scores, k, a) && IsTopK(scores, k, b) && n <= |a|
    ensures a[..n] == b[..n]
  {
    if n > 0 {
      TopKUnique(scores, k, a, b, n - 1);
      var m := n - 1;
      if a[m] != b[m] {
        NextAgrees(scores, k, a, b, m);
        NextAgrees(scores, k, b, a, m);
        assert false;
      }
    }
  }

  /** After equal beginnings, the next of `a` cannot come after the next of `b`. */
  lemma NextAgrees(scores: seq<real>, k: nat, a: seq<nat>, b: seq<nat>, m: nat)
    requires IsTopK(scores, k, a) && IsTopK(scores, k, b) && m < |a| && a[..m] == b[..m]
    ensures a[m] == b[m] || Before(scores, a[m], b[m])
  {
    assert forall y :: 0 <= y < m ==> a[y] == a[..m][y] == b[y];
    assert forall y :: 0 <= y < m ==> Before(scores, b[y], b[m]);
    if b[m] in a {
      var y :| 0 <= y < |a| && a[y] == b[m];
    }
  }

  /** In plain terms: descending scores, equal scores in arrival order, and whatever was left out
      scores no more than anything kept, and came later if it scores the same. */
  lemma Ranked(scores: seq<real>, k: nat)
    ensures var r := TopK(scores, k);
            && |r| == Min(k, |scores|)
            && (forall x, y :: 0 <= x < y < |r| ==> r[x] != r[y] && scores[r[x]] >= scores[r[y]])
            && (forall x, y :: 0 <= x < y < |r| && scores[r[x]] == scores[r[y]] ==> r[x] < r[y])
            && (forall x, n: nat :: 0 <= x < |r| && n < |scores| && n !in r ==>
                  scores[n] <= scores[r[x]] && (scores[n] == scores[r[x]] ==> r[x] < n))
  {
    TopKIsTopK(scores, k);
    var r := TopK(scores, k);
    assert forall x, y :: 0 <= x < y < |r| ==> Before(scores, r[x], r[y]);
  }
}
