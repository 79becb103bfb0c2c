/** Similarity is the Jaccard index of token sets, and one minus it is a metric. */
module Jaccard {
  import opened Text

  /** `|A * B| / |A + B|`, and 0 for two empty sets, as the source returns. */
  function Index<T>(a: set<T>, b: set<T>): real {
    if |a + b| == 0 then 0.0 else |a * b| as real / |a + b| as real
  }

  function Members(ts: seq<string>): set<string> {
    set t | t in ts
  }

  lemma MembersStep(ts: seq<string>)
    requires ts != []
    ensures Members(ts) == {ts[0]} + Members(ts[1..])
    ensures StrictlySorted(ts) ==> ts[0] !in Members(ts[1..])
  {
    assert ts == [ts[0]] + ts[1..];
  }

  lemma {:induction false} DistinctCount(ts: seq<string>)
    requires StrictlySorted(ts)
    ensures |Members(ts)| == |ts|
  {
    if ts != [] {
      DistinctCount(ts[1..]);
      MembersStep(ts);
    }
  }

  lemma {:induction false} CommonCount(l: seq<string>, r: seq<string>)
    requires StrictlySorted(l)
    ensures |Common(l, r)| == |Members(l) * Members(r)|
  {
    if l != [] {
      CommonCount(l[1..], r);
      MembersStep(l);
      var rest := Members(l[1..]) * Members(r);
      if l[0] in r {
        assert Members(l) * Members(r) == {l[0]} + rest;
      } else {
        assert Members(l) * Members(r) == rest;
      }
    }
  }

  lemma OverlapIsIndex(l: seq<string>, r: seq<string>)
    requires StrictlySorted(l) && StrictlySorted(r)
    ensures Overlap(l, r) == Index(Members(l), Members(r))
  {
    DistinctCount(l);
    DistinctCount(r);
    CommonCount(l, r);
    FromCounts(l, r);
  }

  lemma FromCounts(l: seq<string>, r: seq<string>)
    requires |Common(l, r)| == |Members(l) * Members(r)|
    requires |Members(l) + Members(r)| == |l| + |r| - |Common(l, r)|
    ensures Overlap(l, r) == Index(Members(l), Members(r))
  {
    if l == [] || r == [] {
      assert Members(l) * Members(r) == {};
      NoneShared(Members(l), Members(r));
    } else {
    }
  }

  lemma NoneShared<T>(a: set<T>, b: set<T>)
    requires a * b == {}
    ensures Index(a, b) == 0.0
  {
  }

  /** On fingerprints, the similarity is the Jaccard index of the token sets. */
  lemma SimilarityIsJaccard(letters: char -> bool, a: string, b: string)
    ensures Similarity(Fingerprint(letters, a), Fingerprint(letters, b))
            == Index(TokenSet(letters, a), TokenSet(letters, b))
  {
    FingerprintSplits(letters, a);
    FingerprintSplits(letters, b);
    TokenListStrict(letters, a);
    TokenListStrict(letters, b);
    OverlapIsIndex(TokenList(letters, a), TokenList(letters, b));
  }

  // ----- the triangle inequality -----

  lemma Scaled(p: nat, u: nat, n: nat)
    requires 0 < u <= n && p <= u
    ensures p as real / u as real <= (p + (n - u)) as real / n as real
    ensures p as real / n as real <= p as real / u as real
  {
    Widen(p as real, u as real, (n - u) as real);
  }

  lemma Widen(a: real, b: real, k: real)
    requires 0.0 <= a <= b && b > 0.0 && k >= 0.0
    ensures a / b <= (a + k) / (b + k) && a / (b + k) <= a / b
  {
    Times(a, b, k);
    assert a * (b + k) == a * b + a * k && (a + k) * b == a * b + b * k;
    Cross(a, b, a + k, b + k);
    Cross(a, b + k, a, b);
  }

  lemma Times(a: real, b: real, k: real)
    requires 0.0 <= a <= b && k >= 0.0
    ensures 0.0 <= a * k <= b * k
  {
  }

  lemma Cross(a: real, b: real, c: real, d: real)
    requires b > 0.0 && d > 0.0 && a * d <= c * b
    ensures a / b <= c / d
  {
    var x, y := a / b, c / d;
    assert a == x * b && c == y * d;
    assert (y - x) * (b * d) == c * b - a * d;
    assert b * d > 0.0;
  }

  /** The counting behind the triangle: two overlaps with `b`, plus what misses each union, fit into
      the whole plus the overlap of `a` and `c`. */
  lemma Cells<T>(a: set<T>, b: set<T>, c: set<T>)
    ensures |a * b| + |b * c| + |c - (a + b)| + |a - (b + c)| <= |a + b + c| + |a * c|
  {
    var p, q := a * b, b * c;
    Within(p * q, a * c);
    var x, y := c - (a + b), a - (b + c);
    assert |(p + q) + x| == |p + q| + |x|;
    assert |(p + q) + x + y| == |(p + q) + x| + |y|;
    Within((p + q) + x + y, a + b + c);
  }

  lemma Within<T>(x: set<T>, y: set<T>)
    requires x <= y
    ensures |x| <= |y|
  {
    assert y == x + (y - x);
  }

  lemma Over(x: nat, y: nat, z: nat, n: nat)
    requires n > 0 && x + y <= n + z
    ensures x as real / n as real + y as real / n as real <= 1.0 + z as real / n as real
  {
    var m := n as real;
    Cross((x + y) as real, m, (n + z) as real, m);
    Spread(n as real, z as real, m);
    Spread(x as real, y as real, m);
  }

  lemma Spread(a: real, b: real, m: real)
    requires m > 0.0
    ensures (a + b) / m == a / m + b / m && m / m == 1.0
  {
  }

  /** `1 - Index` obeys the triangle inequality, empty sets included. */
  lemma Triangle<T>(a: set<T>, b: set<T>, c: set<T>)
    ensures Index(a, b) + Index(b, c) <= 1.0 + Index(a, c)
  {
    var n := |a + b + c|;
    Within(a * b, a + b);
    Within(b * c, b + c);
    Within(a * c, a + c);
    Within(a + b, a + b + c);
    Within(b + c, a + b + c);
    Within(a + c, a + b + c);
    if |a + b| > 0 && |b + c| > 0 && |a + c| > 0 {
      assert a + b + c == (a + b) + (c - (a + b));
      assert a + b + c == (b + c) + (a - (b + c));
      Scaled(|a * b|, |a + b|, n);
      Scaled(|b * c|, |b + c|, n);
      Scaled(|a * c|, |a + c|, n);
      Cells(a, b, c);
      Over(|a * b| + (n - |a + b|), |b * c| + (n - |b + c|), |a * c|, n);
    } else {
      AtMostOne(a, b);
      AtMostOne(b, c);
    }
  }

  lemma AtMostOne<T>(a: set<T>, b: set<T>)
    ensures 0.0 <= Index(a, b) <= 1.0
    ensures a * b == {} ==> Index(a, b) == 0.0
  {
    Within(a * b, a + b);
    if |a + b| > 0 {
      Cross(|a * b| as real, |a + b| as real, 1.0, 1.0);
      Cross(0.0, 1.0, |a * b| as real, |a + b| as real);
    }
  }

  /** The distance between two texts' fingerprints. */
  function Likeness(letters: char -> bool, a: string, b: string): real {
    Similarity(Fingerprint(letters, a), Fingerprint(letters, b))
  }

  lemma LikenessTriangle(letters: char -> bool, a: string, b: string, c: string)
    ensures (1.0 - Likeness(letters, a, c)) <= (1.0 - Likeness(letters, a, b)) + (1.0 - Likeness(letters, b, c))
  {
    SimilarityIsJaccard(letters, a, b);
    SimilarityIsJaccard(letters, b, c);
    SimilarityIsJaccard(letters, a, c);
    Triangle(TokenSet(letters, a), TokenSet(letters, b), TokenSet(letters, c));
  }

  lemma IndexPositive<T>(x: set<T>, y: set<T>)
    requires Index(x, y) > 0.0
    ensures x != {} && y != {}
  {
    assert x == {} || y == {} ==> x * y == {};
  }

  lemma IndexOne<T>(x: set<T>, y: set<T>)
    ensures Index(x, y) == Index(y, x)
    ensures Index(x, y) == 1.0 <==> x == y && x != {}
  {
    assert x * y == y * x && x + y == y + x;
    if Index(x, y) == 1.0 {
      var n, d := |x * y| as real, |x + y| as real;
      assert n == (n / d) * d;
      assert x + y == (x * y) + (x + y - x * y);
      assert |x + y - x * y| == 0;
    } else if x == y {
      assert x * y == x && x + y == x;
    }
  }

  /** Similarity is symmetric, and 1 exactly for equal fingerprints with at least one token. */
  lemma LikenessOne(letters: char -> bool, a: string, b: string)
    ensures Likeness(letters, a, b) == Likeness(letters, b, a)
    ensures Likeness(letters, a, b) == 1.0
            <==> Fingerprint(letters, a) == Fingerprint(letters, b) && TokenSet(letters, a) != {}
  {
    SimilarityIsJaccard(letters, a, b);
    SimilarityIsJaccard(letters, b, a);
    FingerprintCanonical(letters, a, b);
    IndexOne(TokenSet(letters, a), TokenSet(letters, b));
  }

  lemma {:induction false} SetDrift<T>(sets: seq<set<T>>)
    requires |sets| > 1
    requires forall i :: 0 < i < |sets| ==> Index(sets[i - 1], sets[i]) >= 0.72
    ensures Index(sets[0], sets[|sets| - 1]) >= 1.0 - 0.28 * (|sets| - 1) as real
  {
    var n := |sets| - 1;
    if n > 1 {
      SetDrift(sets[..n]);
      Triangle(sets[0], sets[n - 1], sets[n]);
    }
  }

  /** Along a chain of `n` texts, each at least `0.72` similar to the one before, the ends stay at
      least `1 - 0.28 n` similar. */
  lemma Drift(letters: char -> bool, texts: seq<string>)
    requires |texts| > 1
    requires forall i :: 0 < i < |texts| ==> Likeness(letters, texts[i - 1], texts[i]) >= 0.72
    ensures Likeness(letters, texts[0], texts[|texts| - 1]) >= 1.0 - 0.28 * (|texts| - 1) as real
  {
    var sets := seq(|texts|, i requires 0 <= i < |texts| => TokenSet(letters, texts[i]));
    forall i | 0 < i < |texts|
      ensures Index(sets[i - 1], sets[i]) >= 0.72
    {
      SimilarityIsJaccard(letters, texts[i - 1], texts[i]);
    }
    SetDrift(sets);
    SimilarityIsJaccard(letters, texts[0], texts[|texts| - 1]);
  }
}
