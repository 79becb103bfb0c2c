/** The two text operations of the prefix cache: cutting a prompt at 128 bytes of UTF-8, and SQL's
    `like` with the stored prefix as its pattern. */
module PrefixText {
  import opened Options
  import opened Text

  const CUT: nat := 128

  // ----- cutting at a byte -----

  /** Bytes of a character in UTF-8. */
  function Width(c: char): (w: nat)
    ensures 1 <= w <= 4
  {
    var n := c as int;
    if n < 0x80 then 1 else if n < 0x800 then 2 else if n < 0x1_0000 then 3 else 4
  }

  /** How many code points `w` bytes of UTF-8 can tell apart: 7 bits in one byte, and 5 w + 1 bits in more. */
  function Capacity(w: nat): nat {
    if w == 0 then 0 else if w == 1 then Power2(7) else Power2(5 * w + 1)
  }

  function Power2(n: nat): nat {
    if n == 0 then 1 else 2 * Power2(n - 1)
  }

  /** A character takes the fewest bytes that can hold it. */
  lemma WidthIsLeast(c: char)
    ensures Capacity(Width(c) - 1) <= c as int < Capacity(Width(c))
  {
    assert Power2(7) == 0x80 && Power2(11) == 0x800 && Power2(16) == 0x1_0000 && Power2(21) == 0x20_0000 by {
      assert Power2(4) == 16 && Power2(8) == 16 * Power2(4) && Power2(12) == 16 * Power2(8);
      assert Power2(16) == 16 * Power2(12) && Power2(20) == 16 * Power2(16);
    }
  }

  function Bytes(s: string): (n: nat)
    ensures n >= |s|
  {
    if s == "" then 0 else Width(s[0]) + Bytes(s[1..])
  }

  /** `&s[..n]`, which panics (no value) when byte `n` is not the start of a character. */
  function Slice(s: string, n: nat): Option<string> {
    if n == 0 then Some("")
    else if s == "" || Width(s[0]) > n then None
    else
      match Slice(s[1..], n - Width(s[0]))
      case None => None
      case Some(rest) => Some([s[0]] + rest)
  }

  /** The prefix stored for an answered prompt, if the cut falls between two characters. */
  function StoredPrefix(prompt: string): Option<string> {
    Slice(prompt, if Bytes(prompt) < CUT then Bytes(prompt) else CUT)
  }

  /** A slice is the leading characters that make up exactly `n` bytes; there is none exactly when no
      whole number of characters does. */
  lemma {:induction false} SliceIs(s: string, n: nat)
    ensures Slice(s, n).Some? ==> var p := Slice(s, n).value; p <= s && Bytes(p) == n
    ensures Slice(s, n).None? <==> forall k :: 0 <= k <= |s| ==> Bytes(s[..k]) != n
  {
    if n == 0 {
      assert Bytes(s[..0]) == 0;
    } else if s == "" {
    } else {
      assert forall k :: 0 < k <= |s| ==> s[..k][0] == s[0] && s[..k][1..] == s[1..][..k - 1];
      if Width(s[0]) <= n {
        SliceIs(s[1..], n - Width(s[0]));
        assert forall k :: 0 <= k <= |s[1..]| ==> s[1..][..k] == s[..k + 1][1..];
      }
    }
  }

  /** A character lies across byte 128. */
  ghost predicate Straddles(prompt: string) {
    Bytes(prompt) > CUT && forall k :: 0 <= k <= |prompt| ==> Bytes(prompt[..k]) != CUT
  }

  /** Short prompts are stored whole; a longer one is cut unless a character lies across byte 128. */
  lemma CutExactlyWhen(prompt: string)
    ensures StoredPrefix(prompt).None? <==> Straddles(prompt)
    ensures Bytes(prompt) <= CUT ==> StoredPrefix(prompt) == Some(prompt)
    ensures StoredPrefix(prompt).Some? ==> StoredPrefix(prompt).value <= prompt
  {
    var n := if Bytes(prompt) < CUT then Bytes(prompt) else CUT;
    SliceIs(prompt, n);
    assert prompt[..|prompt|] == prompt;
    if Bytes(prompt) <= CUT {
      assert Bytes(prompt[..|prompt|]) == n;
      WholePrefix(StoredPrefix(prompt).value, prompt);
    }
  }

  lemma {:induction false} WholePrefix(p: string, s: string)
    requires p <= s && Bytes(p) == Bytes(s)
    ensures p == s
  {
    if p == "" {
      assert s == "";
    } else {
      assert p[0] == s[0] && p[1..] <= s[1..];
      WholePrefix(p[1..], s[1..]);
      assert p == [p[0]] + p[1..] && s == [s[0]] + s[1..];
    }
  }

  function Repeat(c: char, n: nat): (s: string)
    ensures |s| == n && forall k :: 0 <= k < n ==> s[k] == c
  {
    if n == 0 then "" else [c] + Repeat(c, n - 1)
  }

  lemma RepeatBytes(c: char, n: nat, k: nat)
    requires Width(c) == 1 && k <= n
    ensures Bytes(Repeat(c, n)[..k]) == k
  {
    if k > 0 {
      assert Repeat(c, n)[..k][1..] == Repeat(c, n - 1)[..k - 1];
      RepeatBytes(c, n - 1, k - 1);
    }
  }

  /** 127 one-byte characters and then one of two bytes: no cut. */
  const STRADDLING: string := Repeat('a', 127) + ['\U{00E9}']

  lemma StraddlingHasNoCut()
    ensures StoredPrefix(STRADDLING).None?
  {
    forall k | 0 <= k <= |STRADDLING|
      ensures Bytes(STRADDLING[..k]) == if k <= 127 then k else 129
    {
      if k <= 127 {
        assert STRADDLING[..k] == Repeat('a', 127)[..k];
        RepeatBytes('a', 127, k);
      } else {
        assert STRADDLING[..k] == STRADDLING;
        RepeatThen('a', 127, '\U{00E9}');
      }
    }
    assert STRADDLING[..|STRADDLING|] == STRADDLING;
    CutExactlyWhen(STRADDLING);
  }

  lemma RepeatThen(c: char, n: nat, d: char)
    requires Width(c) == 1
    ensures Bytes(Repeat(c, n) + [d]) == n + Width(d)
  {
    if n > 0 {
      assert (Repeat(c, n) + [d])[1..] == Repeat(c, n - 1) + [d];
      RepeatThen(c, n - 1, d);
    } else {
      assert Repeat(c, n) + [d] == [d] && [d][1..] == "";
    }
  }

  // ----- like -----

  /** Matching of a pattern with `%` for any text and `_` for any one character; ASCII letters match
      in either case. */
  predicate Like(pattern: string, text: string)
    decreases |pattern| + |text|
  {
    if pattern == "" then text == ""
    else if pattern[0] == '%' then Like(pattern[1..], text) || (text != "" && Like(pattern, text[1..]))
    else text != "" && (pattern[0] == '_' || LowerChar(pattern[0]) == LowerChar(text[0])) && Like(pattern[1..], text[1..])
  }

  /** SQLite reads both sides up to the first NUL. */
  function UpToNul(s: string): string {
    if s == "" || s[0] == '\0' then "" else [s[0]] + UpToNul(s[1..])
  }

  /** `prompt like prefix || '%'` */
  predicate Matches(prefix: string, prompt: string) {
    Like(UpToNul(prefix + "%"), UpToNul(prompt))
  }

  /** `%` stands for any text. */
  lemma {:induction false} LikePercent(pattern: string, text: string)
    ensures Like("%" + pattern, text) <==> exists k :: 0 <= k <= |text| && Like(pattern, text[k..])
  {
    assert ("%" + pattern)[1..] == pattern && text[0..] == text;
    if text != "" {
      LikePercent(pattern, text[1..]);
      assert forall k :: 0 <= k < |text| ==> text[1..][k..] == text[k + 1..];
      if exists k :: 0 <= k <= |text| && Like(pattern, text[k..]) {
        var k :| 0 <= k <= |text| && Like(pattern, text[k..]);
        if k > 0 {
          assert text[1..][k - 1..] == text[k..];
        }
      }
      if exists k :: 0 <= k <= |text[1..]| && Like(pattern, text[1..][k..]) {
        var k :| 0 <= k <= |text[1..]| && Like(pattern, text[1..][k..]);
        assert text[k + 1..] == text[1..][k..];
      }
    }
  }

  lemma {:induction false} LikeAny(text: string)
    ensures Like("%", text)
  {
    assert "%"[1..] == "";
    if text != "" {
      LikeAny(text[1..]);
    }
  }

  lemma {:induction false} LikeItself(p: string)
    ensures Like(p, p)
  {
    if p != "" {
      LikeItself(p[1..]);
      if p[0] == '%' {
        LikePercent(p[1..], p);
        assert Like(p[1..], p[1..]);
        assert "%" + p[1..] == p;
      }
    }
  }

  lemma {:induction false} LikeExtended(p: string, rest: string)
    ensures Like(p + "%", p + rest)
  {
    if p == "" {
      assert p + "%" == "%" && p + rest == rest;
      LikeAny(rest);
    } else {
      LikeExtended(p[1..], rest);
      assert (p + "%")[1..] == p[1..] + "%" && (p + rest)[1..] == p[1..] + rest;
      if p[0] == '%' {
        LikePercent(p[1..] + "%", p + rest);
        assert "%" + (p[1..] + "%") == p + "%";
        assert Like(p[1..] + "%", (p + rest)[1..]);
      }
    }
  }

  lemma {:induction false} UpToNulOf(a: string, b: string)
    ensures UpToNul(a + b) == if '\0' in a then UpToNul(a) else a + UpToNul(b)
  {
    if a == "" {
      assert a + b == b;
    } else if a[0] != '\0' {
      assert (a + b)[1..] == a[1..] + b;
      UpToNulOf(a[1..], b);
      assert a == [a[0]] + a[1..];
      assert '\0' in a <==> '\0' in a[1..];
    }
  }

  /** Whatever wildcards it contains, a stored prefix matches every prompt it begins. */
  lemma PrefixMatchesItsPrompts(prefix: string, prompt: string)
    requires prefix <= prompt
    ensures Matches(prefix, prompt)
  {
    var rest := prompt[|prefix|..];
    assert prompt == prefix + rest;
    UpToNulOf(prefix, "%");
    UpToNulOf(prefix, rest);
    if '\0' in prefix {
      LikeItself(UpToNul(prefix));
    } else {
      assert UpToNul("%") == "%" by { assert "%"[1..] == "" && ['%'] + "" == "%"; }
      LikeExtended(prefix, UpToNul(rest));
    }
  }

  /** No wildcard and no NUL. */
  predicate Literal(s: string) {
    forall k :: 0 <= k < |s| ==> s[k] != '%' && s[k] != '_' && s[k] != '\0'
  }

  lemma {:induction false} LikeLiteral(p: string, text: string)
    requires Literal(p)
    ensures Like(p + "%", text) <==> Lower(p) <= Lower(text)
  {
    if p == "" {
      assert p + "%" == "%";
      LikeAny(text);
    } else if text == "" {
      assert !(Lower(p) <= Lower(text));
    } else {
      LikeLiteral(p[1..], text[1..]);
      assert (p + "%")[1..] == p[1..] + "%";
      assert Lower(p) == [LowerChar(p[0])] + Lower(p[1..]) && Lower(text) == [LowerChar(text[0])] + Lower(text[1..]);
    }
  }

  /** A literal prefix matches exactly the prompts that begin with it up to ASCII case. */
  lemma LiteralMatches(prefix: string, prompt: string)
    requires Literal(prefix)
    ensures Matches(prefix, prompt) <==> Lower(prefix) <= Lower(UpToNul(prompt))
  {
    UpToNulOf(prefix, "%");
    assert UpToNul("%") == "%" by { assert "%"[1..] == "" && ['%'] + "" == "%"; }
    assert '\0' !in prefix;
    LikeLiteral(prefix, UpToNul(prompt));
  }
}
