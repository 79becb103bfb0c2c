/** Totals over a sequence, and how they move when one element is appended or replaced. */
module Folds {

  function One(b: bool): nat { if b then 1 else 0 }

  /** The sum of `f` over `s`. */
  function Sum<T>(f: T -> nat, s: seq<T>): nat {
    if s == [] then 0 else Sum(f, s[..|s| - 1]) + f(s[|s| - 1])
  }

  /** The multiset union of `f` over `s`. */
  function Bag<T, U>(f: T -> multiset<U>, s: seq<T>): multiset<U> {
    if s == [] then multiset{} else Bag(f, s[..|s| - 1]) + f(s[|s| - 1])
  }

  lemma Assoc<T>(a: seq<T>, b: seq<T>, d: seq<T>)
    ensures (a + b) + d == a + (b + d)
  {
  }

  lemma SumAppend<T>(f: T -> nat, s: seq<T>, x: T)
    ensures Sum(f, s + [x]) == Sum(f, s) + f(x)
  {
    assert (s + [x])[..|s|] == s;
  }

  lemma {:induction false} SumUpdate<T>(f: T -> nat, s: seq<T>, i: nat, x: T)
    requires i < |s|
    ensures Sum(f, s[i := x]) + f(s[i]) == Sum(f, s) + f(x)
  {
    var n := |s| - 1;
    if i == n {
      assert s[i := x][..n] == s[..n];
    } else {
      SumUpdate(f, s[..n], i, x);
      assert s[i := x][..n] == s[..n][i := x];
    }
  }

  lemma {:induction false} SumPositive<T>(f: T -> nat, s: seq<T>)
    requires Sum(f, s) > 0
    ensures exists i :: 0 <= i < |s| && f(s[i]) > 0
  {
    var n := |s| - 1;
    if f(s[n]) == 0 {
      SumPositive(f, s[..n]);
      var i :| 0 <= i < n && f(s[..n][i]) > 0;
      assert f(s[i]) > 0;
    }
  }

  lemma {:induction false} SumZero<T>(f: T -> nat, s: seq<T>)
    requires forall i :: 0 <= i < |s| ==> f(s[i]) == 0
    ensures Sum(f, s) == 0
  {
    if s != [] {
      SumZero(f, s[..|s| - 1]);
    }
  }

  lemma {:induction false} SumLe<T>(f: T -> nat, g: T -> nat, s: seq<T>)
    requires forall i :: 0 <= i < |s| ==> f(s[i]) <= g(s[i])
    ensures Sum(f, s) <= Sum(g, s)
  {
    if s != [] {
      SumLe(f, g, s[..|s| - 1]);
    }
  }

  lemma {:induction false} SumAdd<T>(f: T -> nat, g: T -> nat, h: T -> nat, s: seq<T>)
    requires forall i :: 0 <= i < |s| ==> h(s[i]) == f(s[i]) + g(s[i])
    ensures Sum(h, s) == Sum(f, s) + Sum(g, s)
  {
    if s != [] {
      SumAdd(f, g, h, s[..|s| - 1]);
    }
  }

  lemma BagAppend<T, U>(f: T -> multiset<U>, s: seq<T>, x: T)
    ensures Bag(f, s + [x]) == Bag(f, s) + f(x)
  {
    assert (s + [x])[..|s|] == s;
  }

  lemma {:induction false} BagUpdate<T, U>(f: T -> multiset<U>, s: seq<T>, i: nat, x: T)
    requires i < |s|
    ensures Bag(f, s[i := x]) + f(s[i]) == Bag(f, s) + f(x)
  {
    var n := |s| - 1;
    if i == n {
      assert s[i := x][..n] == s[..n];
    } else {
      BagUpdate(f, s[..n], i, x);
      assert s[i := x][..n] == s[..n][i := x];
      var after, before, last := Bag(f, s[i := x][..n]), Bag(f, s[..n]), f(s[n]);
      assert (after + last) + f(s[i]) == (after + f(s[i])) + last;
      assert (before + last) + f(x) == (before + f(x)) + last;
    }
  }

  lemma {:induction false} BagHas<T, U>(f: T -> multiset<U>, s: seq<T>, u: U)
    ensures u in Bag(f, s) <==> exists i :: 0 <= i < |s| && u in f(s[i])
  {
    if s != [] {
      var n := |s| - 1;
      BagHas(f, s[..n], u);
      if u in Bag(f, s[..n]) {
        var i :| 0 <= i < n && u in f(s[..n][i]);
        assert u in f(s[i]);
      }
      if i :| 0 <= i < |s| && u in f(s[i]) {
        if i < n {
          assert u in f(s[..n][i]);
        }
      }
    }
  }
}
