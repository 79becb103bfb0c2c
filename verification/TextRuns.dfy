/** What a token is: a longest run of letters and digits of the text, in lower case. */
module TextRuns {
  import opened Text

  /** A letter or digit: of ASCII, or of what the Unicode tables add to it. */
  predicate WordChar(letters: char -> bool, c: char) {
    || '0' <= c <= '9' || 'A' <= c <= 'Z' || 'a' <= c <= 'z'
    || (c as int >= 128 && letters(c) && !IsWhitespace(c))
  }

  /** A run without separators that cannot be made longer. */
  predicate Run(sep: char -> bool, s: string, i: nat, j: nat) {
    && i < j <= |s| && (forall k :: i <= k < j ==> !sep(s[k]))
    && (i == 0 || sep(s[i - 1])) && (j == |s| || sep(s[j]))
  }

  lemma {:induction false} FirstPiece(sep: char -> bool, s: string) returns (n: nat)
    ensures n <= |s| && (forall k :: 0 <= k < n ==> !sep(s[k])) && (n < |s| ==> sep(s[n]))
    ensures Split(sep, s) == [s[..n]] + if n == |s| then [] else Split(sep, s[n + 1..])
  {
    if s == "" || sep(s[0]) {
      n := 0;
    } else {
      var k := FirstPiece(sep, s[1..]);
      n := k + 1;
      assert [s[0]] + s[1..][..k] == s[..n];
      assert k < |s[1..]| ==> s[1..][k + 1..] == s[n + 1..];
    }
  }

  /** The words of a text are its runs. */
  lemma {:induction false} WordsAreRuns(sep: char -> bool, s: string, p: string)
    ensures p in Words(sep, s) <==> exists i: nat, j: nat :: Run(sep, s, i, j) && p == s[i..j]
    decreases |s|
  {
    NonEmptyMembers(Split(sep, s));
    var n := FirstPiece(sep, s);
    if n > 0 {
      assert Run(sep, s, 0, n) && s[..n] == s[0..n];
    }
    if n == |s| {
      forall i: nat, j: nat | Run(sep, s, i, j)
        ensures i == 0 && j == n
      {
      }
    } else {
      var rest := s[n + 1..];
      WordsAreRuns(sep, rest, p);
      NonEmptyMembers(Split(sep, rest));
      forall i: nat, j: nat
        ensures Run(sep, rest, i, j) ==> Run(sep, s, i + n + 1, j + n + 1) && rest[i..j] == s[i + n + 1..j + n + 1]
      {
        Shifted(sep, s, n, i, j);
      }
      forall i: nat, j: nat | Run(sep, s, i, j)
        ensures (i == 0 && j == n) || (i > n && Run(sep, rest, i - n - 1, j - n - 1) && s[i..j] == rest[i - n - 1..j - n - 1])
      {
        Behind(sep, s, n, i, j);
      }
    }
  }

  lemma Shifted(sep: char -> bool, s: string, n: nat, i: nat, j: nat)
    requires n < |s| && sep(s[n])
    ensures var rest := s[n + 1..];
            Run(sep, rest, i, j) ==> Run(sep, s, i + n + 1, j + n + 1) && rest[i..j] == s[i + n + 1..j + n + 1]
  {
    var rest := s[n + 1..];
    assert forall k :: n < k < |s| ==> s[k] == rest[k - n - 1];
  }

  lemma Behind(sep: char -> bool, s: string, n: nat, i: nat, j: nat)
    requires n < |s| && sep(s[n]) && (forall k :: 0 <= k < n ==> !sep(s[k])) && Run(sep, s, i, j)
    ensures var rest := s[n + 1..];
            (i == 0 && j == n) || (i > n && Run(sep, rest, i - n - 1, j - n - 1) && s[i..j] == rest[i - n - 1..j - n - 1])
  {
    var rest := s[n + 1..];
    assert forall k :: n < k < |s| ==> s[k] == rest[k - n - 1];
  }

  /** Upper-case ASCII letters become lower-case ones, and nothing else changes. */
  predicate Lowered(s: string, t: string) {
    && |t| == |s|
    && forall k :: 0 <= k < |s| ==> t[k] as int == if 'A' <= s[k] <= 'Z' then s[k] as int + 32 else s[k] as int
  }

  lemma LoweredIs(s: string, t: string)
    ensures Lowered(s, t) <==> t == Lower(s)
  {
    assert Lowered(s, t) ==> forall k :: 0 <= k < |s| ==> t[k] == LowerChar(s[k]);
  }

  /** A text's tokens are its longest runs of letters and digits, in lower case. */
  lemma TokensAreRuns(letters: char -> bool, s: string, t: string)
    ensures t in TokenSet(letters, s)
            <==> exists i: nat, j: nat :: Run(c => !WordChar(letters, c), s, i, j) && Lowered(s[i..j], t)
  {
    var sep, words := NotAlphanumeric(letters), Words(NotAlphanumeric(letters), s);
    var gap := c => !WordChar(letters, c);
    assert forall c :: sep(c) <==> gap(c);
    assert forall i: nat, j: nat :: Run(sep, s, i, j) <==> Run(gap, s, i, j);
    if t in TokenSet(letters, s) {
      var x :| 0 <= x < |LowerAll(words)| && LowerAll(words)[x] == t;
      WordsAreRuns(sep, s, words[x]);
      var i: nat, j: nat :| Run(sep, s, i, j) && words[x] == s[i..j];
      LoweredIs(s[i..j], t);
      assert Run(gap, s, i, j) && Lowered(s[i..j], t);
    }
    forall i: nat, j: nat | Run(gap, s, i, j) && Lowered(s[i..j], t)
      ensures t in TokenSet(letters, s)
    {
      LoweredIs(s[i..j], t);
      WordsAreRuns(sep, s, s[i..j]);
      assert Run(sep, s, i, j);
      var x :| 0 <= x < |words| && words[x] == s[i..j];
      assert LowerAll(words)[x] == t;
    }
  }

  /** The first difference, which decides the order in which tokens are listed. */
  predicate DiffersAt(a: string, b: string, k: nat) {
    k < |a| && k < |b| && a[..k] == b[..k] && a[k] < b[k]
  }

  lemma {:induction false} OrderedByFirstDifference(a: string, b: string)
    ensures Le(a, b) <==> a <= b || exists k: nat :: DiffersAt(a, b, k)
  {
    if a != "" && b != "" {
      assert forall k: nat :: 0 < k < |a| && k < |b| ==> a[..k][0] == a[0] && b[..k][0] == b[0];
      if a[0] == b[0] {
        OrderedByFirstDifference(a[1..], b[1..]);
        assert a <= b <==> a[1..] <= b[1..];
        forall k: nat
          ensures DiffersAt(a[1..], b[1..], k) <==> DiffersAt(a, b, k + 1)
        {
          if k + 1 < |a| && k + 1 < |b| {
            assert a[..k + 1] == [a[0]] + a[1..][..k] && b[..k + 1] == [b[0]] + b[1..][..k];
            assert a[..k + 1][1..] == a[1..][..k] && b[..k + 1][1..] == b[1..][..k];
          }
        }
        if k: nat :| DiffersAt(a, b, k) {
          assert DiffersAt(a[1..], b[1..], k - 1);
        }
      } else if a[0] < b[0] {
        assert DiffersAt(a, b, 0);
      }
    }
  }
}
