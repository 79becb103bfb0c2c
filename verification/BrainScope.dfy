/** When a record is in the scope of a query, said of the two texts and what they parse to. */
module BrainScope {
  import opened Text
  import opened Brain

  predicate Blank(s: string) {
    forall i :: 0 <= i < |s| ==> IsWhitespace(s[i])
  }

  /** `core` is `s` without the white space around it. */
  ghost predicate IsCore(s: string, core: string) {
    && (exists i, j :: 0 <= i <= j <= |s| && core == s[i..j] && Blank(s[..i]) && Blank(s[j..]))
    && (core != "" ==> !IsWhitespace(core[0]) && !IsWhitespace(core[|core| - 1]))
  }

  lemma {:induction false} TrimLeftIs(s: string) returns (i: nat)
    ensures i <= |s| && TrimLeft(s) == s[i..] && Blank(s[..i])
    ensures TrimLeft(s) != "" ==> !IsWhitespace(TrimLeft(s)[0])
  {
    if s != "" && IsWhitespace(s[0]) {
      var k := TrimLeftIs(s[1..]);
      i := k + 1;
      assert s[1..][k..] == s[i..];
      assert forall x :: 0 < x < i ==> s[..i][x] == s[1..][..k][x - 1];
    } else {
      i := 0;
    }
  }

  lemma {:induction false} TrimRightIs(s: string) returns (j: nat)
    ensures j <= |s| && TrimRight(s) == s[..j] && Blank(s[j..])
    ensures TrimRight(s) != "" ==> !IsWhitespace(TrimRight(s)[|TrimRight(s)| - 1])
  {
    if s != "" && IsWhitespace(s[|s| - 1]) {
      var front := s[..|s| - 1];
      j := TrimRightIs(front);
      assert front[..j] == s[..j];
      assert forall x :: 0 <= x < |s| - j ==> s[j..][x] == if x < |front| - j then front[j..][x] else s[|s| - 1];
    } else {
      j := |s|;
    }
  }

  lemma TrimParts(s: string) returns (i: nat, j: nat)
    ensures i <= j <= |s| && Trim(s) == s[i..j] && Blank(s[..i]) && Blank(s[j..])
    ensures Trim(s) != "" ==> !IsWhitespace(Trim(s)[0]) && !IsWhitespace(Trim(s)[|Trim(s)| - 1])
  {
    i := TrimLeftIs(s);
    var left := TrimLeft(s);
    var k := TrimRightIs(left);
    j := i + k;
    assert Trim(s) == s[i..j];
    assert s[j..] == left[k..];
    assert Trim(s) != "" ==> Trim(s)[0] == left[0];
  }

  /** Trimming takes off all white space at both ends and nothing else. */
  lemma TrimIs(s: string)
    ensures IsCore(s, Trim(s))
  {
    var i, j := TrimParts(s);
  }

  /** Only one text is the core of another. */
  lemma CoreIs(s: string, core: string)
    requires IsCore(s, core)
    ensures core == Trim(s)
  {
    var i, j := TrimParts(s);
    var a, b :| 0 <= a <= b <= |s| && core == s[a..b] && Blank(s[..a]) && Blank(s[b..]);
    SameCore(s, core, a, b, Trim(s), i, j);
  }

  lemma SameCore(s: string, core: string, a: nat, b: nat, other: string, i: nat, j: nat)
    requires a <= b <= |s| && core == s[a..b] && Blank(s[..a]) && Blank(s[b..])
    requires i <= j <= |s| && other == s[i..j] && Blank(s[..i]) && Blank(s[j..])
    requires core != "" ==> !IsWhitespace(core[0]) && !IsWhitespace(core[|core| - 1])
    requires other != "" ==> !IsWhitespace(other[0]) && !IsWhitespace(other[|other| - 1])
    ensures core == other
  {
    if core == "" {
      BlankCore(s, a, other, i, j);
    } else if other == "" {
      BlankCore(s, i, core, a, b);
    } else {
      WidestCore(s, a, b, i, j);
      WidestCore(s, i, j, a, b);
    }
  }

  lemma AllBlank(s: string, a: nat)
    requires a <= |s| && Blank(s[..a]) && Blank(s[a..])
    ensures Blank(s)
  {
    assert forall x :: 0 <= x < |s| ==> s[x] == if x < a then s[..a][x] else s[a..][x - a];
  }

  lemma BlankCore(s: string, a: nat, core: string, i: nat, j: nat)
    requires a <= |s| && Blank(s[..a]) && Blank(s[a..])
    requires i <= j <= |s| && core == s[i..j] && (core != "" ==> !IsWhitespace(core[0]))
    ensures core == ""
  {
    AllBlank(s, a);
  }

  lemma WidestCore(s: string, a: nat, b: nat, i: nat, j: nat)
    requires a < b <= |s| && i < j <= |s|
    requires Blank(s[..i]) && Blank(s[j..]) && !IsWhitespace(s[a..b][0]) && !IsWhitespace(s[a..b][b - a - 1])
    ensures i <= a && b <= j
  {
    assert s[a..b][0] == s[a] && s[a..b][b - a - 1] == s[b - 1];
  }

  lemma BlankIs(s: string)
    ensures Blank(s) <==> Trim(s) == ""
  {
    var i, j := TrimParts(s);
    if Blank(s) {
      BlankCore(s, 0, Trim(s), i, j);
    }
    if Trim(s) == "" {
      AllBlank(s, i);
    }
  }

  /** A blank query and the empty object admit everything; any other admits the records whose scope
      parses and has every pair of the query's. */
  ghost predicate InScope(env: Env, record: string, query: string) {
    || Blank(query)
    || IsCore(query, "{}")
    || (env.parseScope(query).Some? && env.parseScope(record).Some?
        && env.parseScope(query).value.Items <= env.parseScope(record).value.Items)
  }

  lemma ScopeMeans(env: Env, record: string, query: string)
    ensures ScopeMatches(env, record, query) <==> InScope(env, record, query)
  {
    BlankIs(query);
    if Trim(query) == "{}" {
      TrimIs(query);
    }
    if IsCore(query, "{}") {
      CoreIs(query, "{}");
    }
    if env.parseScope(query).Some? && env.parseScope(record).Some? {
      ItemsMeans(env.parseScope(query).value, env.parseScope(record).value);
    }
  }

  lemma ItemsMeans(q: map<string, string>, r: map<string, string>)
    ensures q.Items <= r.Items <==> forall k :: k in q ==> k in r && r[k] == q[k]
  {
    if q.Items <= r.Items {
      forall k | k in q
        ensures k in r && r[k] == q[k]
      {
        assert (k, q[k]) in q.Items;
      }
    }
  }
}
