/**
  The token fingerprint and the similarity that drive task merging, recall and ranking.
  `letters` stands for the Unicode tables: which characters outside ASCII are alphanumeric.
 */
module Text {

  /** Unicode white space. */
  predicate IsWhitespace(c: char) {
    var n := c as int;
    || 9 <= n <= 13 || n == 32 || n == 0x85 || n == 0xA0 || n == 0x1680 || 0x2000 <= n <= 0x200A
    || n == 0x2028 || n == 0x2029 || n == 0x202F || n == 0x205F || n == 0x3000
  }

  predicate IsAlphanumeric(letters: char -> bool, c: char) {
    if c as int < 128 then '0' <= c <= '9' || 'A' <= c <= 'Z' || 'a' <= c <= 'z'
    else !IsWhitespace(c) && letters(c)
  }

  function LowerChar(c: char): char {
    if 'A' <= c <= 'Z' then (c as int + 32) as char else c
  }

  function Lower(s: string): (r: string)
    ensures |r| == |s| && forall i :: 0 <= i < |s| ==> r[i] == LowerChar(s[i])
  {
    seq(|s|, i requires 0 <= i < |s| => LowerChar(s[i]))
  }

  /** All pieces between separators, empty ones included. */
  function Split(sep: char -> bool, s: string): (pieces: seq<string>)
    ensures |pieces| > 0
  {
    if s == "" then [""]
    else
      var rest := Split(sep, s[1..]);
      if sep(s[0]) then [""] + rest else [[s[0]] + rest[0]] + rest[1..]
  }

  function NonEmpty(pieces: seq<string>): seq<string> {
    if pieces == [] then []
    else (if pieces[0] == "" then [] else [pieces[0]]) + NonEmpty(pieces[1..])
  }

  function Words(sep: char -> bool, s: string): seq<string> {
    NonEmpty(Split(sep, s))
  }

  function LowerAll(ts: seq<string>): (r: seq<string>)
    ensures |r| == |ts| && forall i :: 0 <= i < |ts| ==> r[i] == Lower(ts[i])
  {
    seq(|ts|, i requires 0 <= i < |ts| => Lower(ts[i]))
  }

  /** Character order, first difference first, a prefix before its extensions. */
  predicate Le(a: string, b: string) {
    a == "" || (b != "" && (a[0] < b[0] || (a[0] == b[0] && Le(a[1..], b[1..]))))
  }

  function Insert(t: string, ts: seq<string>): seq<string> {
    if ts == [] || Le(t, ts[0]) then [t] + ts else [ts[0]] + Insert(t, ts[1..])
  }

  function Sort(ts: seq<string>): seq<string> {
    if ts == [] then [] else Insert(ts[0], Sort(ts[1..]))
  }

  /** Drops every token equal to its predecessor. */
  function Dedup(ts: seq<string>): seq<string> {
    if |ts| <= 1 then ts
    else if ts[0] == ts[1] then Dedup(ts[1..])
    else [ts[0]] + Dedup(ts[1..])
  }

  function Join(sep: string, ts: seq<string>): string {
    if ts == [] then ""
    else if |ts| == 1 then ts[0]
    else ts[0] + sep + Join(sep, ts[1..])
  }

  function Decimal(n: nat): string {
    (if n < 10 then "" else Decimal(n / 10)) + [('0' as int + n % 10) as char]
  }

  function NotAlphanumeric(letters: char -> bool): char -> bool {
    c => !IsAlphanumeric(letters, c)
  }

  /** The lowercased alphanumeric tokens of a text, in order of appearance. */
  function Tokens(letters: char -> bool, s: string): seq<string> {
    LowerAll(Words(NotAlphanumeric(letters), s))
  }

  function TokenList(letters: char -> bool, s: string): seq<string> {
    Dedup(Sort(Tokens(letters, s)))
  }

  function Fingerprint(letters: char -> bool, s: string): string {
    Join(" ", TokenList(letters, s))
  }

  function SplitWhitespace(s: string): seq<string> {
    Words(IsWhitespace, s)
  }

  /** The members of `left` that occur in `right`. */
  function Common(left: seq<string>, right: seq<string>): (r: seq<string>)
    ensures |r| <= |left|
  {
    if left == [] then []
    else (if left[0] in right then [left[0]] else []) + Common(left[1..], right)
  }

  function Overlap(l: seq<string>, r: seq<string>): real {
    if l == [] || r == [] then 0.0
    else
      var shared := |Common(l, r)|;
      shared as real / (|l| + |r| - shared) as real
  }

  function Similarity(left: string, right: string): real {
    Overlap(SplitWhitespace(left), SplitWhitespace(right))
  }

  /** The set of lowercased alphanumeric tokens of a text. */
  function TokenSet(letters: char -> bool, s: string): set<string> {
    set t | t in Tokens(letters, s)
  }

  // ----- order -----

  lemma {:induction false} LeTotal(a: string, b: string)
    ensures Le(a, b) || Le(b, a)
    ensures Le(a, b) && Le(b, a) ==> a == b
  {
    if a != "" && b != "" && a[0] == b[0] {
      LeTotal(a[1..], b[1..]);
      assert a == [a[0]] + a[1..] && b == [b[0]] + b[1..];
    }
  }

  lemma {:induction false} LeTransitive(a: string, b: string, c: string)
    requires Le(a, b) && Le(b, c)
    ensures Le(a, c)
  {
    if a != "" && a[0] == b[0] == c[0] {
      LeTransitive(a[1..], b[1..], c[1..]);
    }
  }

  ghost predicate Sorted(ts: seq<string>) {
    forall i, j :: 0 <= i < j < |ts| ==> Le(ts[i], ts[j])
  }

  ghost predicate StrictlySorted(ts: seq<string>) {
    forall i, j :: 0 <= i < j < |ts| ==> Le(ts[i], ts[j]) && ts[i] != ts[j]
  }

  lemma {:induction false} InsertSorted(t: string, ts: seq<string>)
    requires Sorted(ts)
    ensures Sorted(Insert(t, ts))
    ensures forall u :: u in Insert(t, ts) <==> u == t || u in ts
  {
    if ts == [] {
    } else if Le(t, ts[0]) {
      forall j | 0 <= j < |ts|
        ensures Le(t, ts[j])
      {
        if j > 0 {
          LeTransitive(t, ts[0], ts[j]);
        }
      }
    } else {
      LeTotal(t, ts[0]);
      InsertSorted(t, ts[1..]);
      var rest := Insert(t, ts[1..]);
      forall u | u in rest
        ensures Le(ts[0], u)
      {
        if u != t {
          assert u in ts[1..];
        }
      }
      assert ts == [ts[0]] + ts[1..];
    }
  }

  lemma {:induction false} SortSorted(ts: seq<string>)
    ensures Sorted(Sort(ts))
    ensures forall u :: u in Sort(ts) <==> u in ts
  {
    if ts != [] {
      SortSorted(ts[1..]);
      InsertSorted(ts[0], Sort(ts[1..]));
      assert ts == [ts[0]] + ts[1..];
    }
  }

  lemma {:induction false} DedupStrict(ts: seq<string>)
    requires Sorted(ts)
    ensures StrictlySorted(Dedup(ts))
    ensures forall u :: u in Dedup(ts) <==> u in ts
  {
    if |ts| > 1 {
      DedupStrict(ts[1..]);
      assert ts == [ts[0]] + ts[1..];
      if ts[0] != ts[1] {
        forall u | u in ts[1..]
          ensures Le(ts[0], u) && u != ts[0]
        {
          var k :| 1 <= k < |ts| && ts[k] == u;
          if u == ts[0] {
            LeTotal(ts[0], ts[1]);
          }
        }
      }
    }
  }

  /** A strictly sorted list is determined by its members. */
  lemma {:induction false} StrictUnique(a: seq<string>, b: seq<string>)
    requires StrictlySorted(a) && StrictlySorted(b)
    requires forall u :: u in a <==> u in b
    ensures a == b
  {
    assert forall i :: 0 <= i < |b| ==> b[i] in b;
    if a != [] {
      assert a[0] in b && b != [];
      assert b[0] in a;
      LeTotal(a[0], b[0]);
      assert a[0] == b[0];
      assert forall u :: u in a[1..] <==> u in a && u != a[0];
      assert forall u :: u in b[1..] <==> u in b && u != b[0];
      StrictUnique(a[1..], b[1..]);
    }
  }

  lemma TokenListStrict(letters: char -> bool, s: string)
    ensures StrictlySorted(TokenList(letters, s))
    ensures (set t | t in TokenList(letters, s)) == TokenSet(letters, s)
  {
    SortSorted(Tokens(letters, s));
    DedupStrict(Sort(Tokens(letters, s)));
  }

  // ----- splitting what was joined -----

  /** Non-empty and free of separators. */
  predicate Solid(sep: char -> bool, t: string) {
    t != "" && forall i :: 0 <= i < |t| ==> !sep(t[i])
  }

  lemma {:induction false} SplitSolid(sep: char -> bool, t: string)
    requires forall i :: 0 <= i < |t| ==> !sep(t[i])
    ensures Split(sep, t) == [t]
  {
    if t != "" {
      SplitSolid(sep, t[1..]);
      assert [t[0]] + t[1..] == t;
    }
  }

  lemma {:induction false} SplitFirst(sep: char -> bool, t: string, rest: string)
    requires forall i :: 0 <= i < |t| ==> !sep(t[i])
    requires sep(' ')
    ensures Split(sep, t + " " + rest) == [t] + Split(sep, rest)
  {
    var s := t + " " + rest;
    if t == "" {
      assert s[1..] == rest;
    } else {
      SplitFirst(sep, t[1..], rest);
      assert s[1..] == t[1..] + " " + rest && s[0] == t[0];
      assert [t[0]] + t[1..] == t;
      var tail := Split(sep, s[1..]);
      assert tail[0] == t[1..] && tail[1..] == Split(sep, rest);
    }
  }

  /** Splitting a joined list of solid tokens gives the list back. */
  lemma {:induction false} WordsOfJoin(sep: char -> bool, ts: seq<string>)
    requires sep(' ') && forall i :: 0 <= i < |ts| ==> Solid(sep, ts[i])
    ensures Words(sep, Join(" ", ts)) == ts
  {
    if |ts| == 0 {
      assert NonEmpty([""]) == NonEmpty([""][1..]);
    } else if |ts| == 1 {
      SplitSolid(sep, ts[0]);
      assert NonEmpty([ts[0]]) == [ts[0]];
    } else {
      SplitFirst(sep, ts[0], Join(" ", ts[1..]));
      WordsOfJoin(sep, ts[1..]);
      var pieces := Split(sep, Join(" ", ts[1..]));
      assert ([ts[0]] + pieces)[1..] == pieces;
    }
  }

  lemma {:induction false} SplitPieces(sep: char -> bool, s: string)
    ensures forall p, i :: p in Split(sep, s) && 0 <= i < |p| ==> !sep(p[i])
  {
    if s != "" {
      SplitPieces(sep, s[1..]);
    }
  }

  lemma {:induction false} NonEmptyMembers(pieces: seq<string>)
    ensures forall p :: p in NonEmpty(pieces) <==> p in pieces && p != ""
  {
    if pieces != [] {
      NonEmptyMembers(pieces[1..]);
      assert pieces == [pieces[0]] + pieces[1..];
    }
  }

  /** Every token of a text is non-empty, alphanumeric and already in lower case. */
  lemma TokensSolid(letters: char -> bool, s: string, t: string)
    requires t in Tokens(letters, s)
    ensures Solid(NotAlphanumeric(letters), t) && Solid(IsWhitespace, t) && Lower(t) == t
  {
    var sep := NotAlphanumeric(letters);
    SplitPieces(sep, s);
    NonEmptyMembers(Split(sep, s));
    var words := Words(sep, s);
    var k :| 0 <= k < |words| && LowerAll(words)[k] == t;
    assert words[k] in words;
    forall i | 0 <= i < |t|
      ensures IsAlphanumeric(letters, t[i]) && !IsWhitespace(t[i])
    {
      assert !sep(words[k][i]);
    }
  }

  /** Splitting a fingerprint at white space, or at non-alphanumerics, gives its token list. */
  lemma FingerprintSplits(letters: char -> bool, s: string)
    ensures SplitWhitespace(Fingerprint(letters, s)) == TokenList(letters, s)
    ensures Words(NotAlphanumeric(letters), Fingerprint(letters, s)) == TokenList(letters, s)
    ensures Tokens(letters, Fingerprint(letters, s)) == TokenList(letters, s)
  {
    var ts := TokenList(letters, s);
    SortSorted(Tokens(letters, s));
    DedupStrict(Sort(Tokens(letters, s)));
    forall i | 0 <= i < |ts|
      ensures Solid(NotAlphanumeric(letters), ts[i]) && Solid(IsWhitespace, ts[i]) && Lower(ts[i]) == ts[i]
    {
      assert ts[i] in ts;
      TokensSolid(letters, s, ts[i]);
    }
    WordsOfJoin(IsWhitespace, ts);
    WordsOfJoin(NotAlphanumeric(letters), ts);
    assert LowerAll(ts) == ts;
  }

  /** Two texts have equal fingerprints exactly when their token sets are equal. */
  lemma FingerprintCanonical(letters: char -> bool, a: string, b: string)
    ensures Fingerprint(letters, a) == Fingerprint(letters, b) <==> TokenSet(letters, a) == TokenSet(letters, b)
  {
    var x, y := TokenList(letters, a), TokenList(letters, b);
    TokenListStrict(letters, a);
    TokenListStrict(letters, b);
    FingerprintSplits(letters, a);
    FingerprintSplits(letters, b);
    if TokenSet(letters, a) == TokenSet(letters, b) {
      forall u
        ensures u in x <==> u in y
      {
        assert u in x <==> u in TokenSet(letters, a);
        assert u in y <==> u in TokenSet(letters, b);
      }
      StrictUnique(x, y);
    }
  }

  /** Fingerprinting a fingerprint changes nothing. */
  lemma FingerprintIdempotent(letters: char -> bool, s: string)
    ensures Fingerprint(letters, Fingerprint(letters, s)) == Fingerprint(letters, s)
  {
    FingerprintSplits(letters, s);
    TokenListStrict(letters, s);
    FingerprintCanonical(letters, Fingerprint(letters, s), s);
  }
}
