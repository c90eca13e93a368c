/**
 * The few JavaScript string operations the application relies on:
 * `trim`, `toLowerCase`, `toUpperCase`, `includes`, `slice`/`charAt`,
 * and the `s || fallback` defaulting of a possibly empty or missing string.
 */
module Text {
  import opened Wrappers

  /** ECMAScript WhiteSpace and LineTerminator code points: the set `String.prototype.trim` strips. */
  predicate IsWhitespace(c: char) {
    var n := c as int;
    (9 <= n <= 13) || n == 0x20 || n == 0xA0 || n == 0x1680 || (0x2000 <= n <= 0x200A)
    || n == 0x2028 || n == 0x2029 || n == 0x202F || n == 0x205F || n == 0x3000 || n == 0xFEFF
  }

  predicate AllWhitespace(s: string) {
    forall i :: 0 <= i < |s| ==> IsWhitespace(s[i])
  }

  /** The number of whitespace code points `s` starts with. */
  function LeadingWhitespace(s: string): (n: nat)
    ensures n <= |s|
  {
    if s != [] && IsWhitespace(s[0]) then 1 + LeadingWhitespace(s[1..]) else 0
  }

  /** The number of whitespace code points `s` ends with. */
  function TrailingWhitespace(s: string): (n: nat)
    ensures n <= |s|
  {
    if s != [] && IsWhitespace(s[|s| - 1]) then 1 + TrailingWhitespace(s[..|s| - 1]) else 0
  }

  /** The leading run is whitespace and is maximal. */
  lemma {:induction false} LeadingWhitespaceSpec(s: string)
    ensures AllWhitespace(s[..LeadingWhitespace(s)])
    ensures LeadingWhitespace(s) == |s| || !IsWhitespace(s[LeadingWhitespace(s)])
  {
    if s != [] && IsWhitespace(s[0]) {
      LeadingWhitespaceSpec(s[1..]);
      var n := LeadingWhitespace(s[1..]);
      assert forall i :: 1 <= i < n + 1 ==> s[i] == s[1..][i - 1];
      assert n < |s| - 1 ==> s[n + 1] == s[1..][n];
    }
  }

  /** The trailing run is whitespace and is maximal. */
  lemma {:induction false} TrailingWhitespaceSpec(s: string)
    ensures AllWhitespace(s[|s| - TrailingWhitespace(s)..])
    ensures TrailingWhitespace(s) == |s| || !IsWhitespace(s[|s| - 1 - TrailingWhitespace(s)])
  {
    if s != [] && IsWhitespace(s[|s| - 1]) {
      TrailingWhitespaceSpec(s[..|s| - 1]);
      var n := TrailingWhitespace(s[..|s| - 1]);
      assert forall i :: |s| - 1 - n <= i < |s| - 1 ==> s[i] == s[..|s| - 1][i];
    }
  }

  /** `s` with its leading whitespace removed. */
  function TrimStart(s: string): (r: string)
    ensures |r| <= |s| && r == s[|s| - |r|..]
    ensures r == [] || !IsWhitespace(r[0])
    ensures AllWhitespace(s[..|s| - |r|])
  {
    LeadingWhitespaceSpec(s);
    s[LeadingWhitespace(s)..]
  }

  /** `s` with its trailing whitespace removed. */
  function TrimEnd(s: string): (r: string)
    ensures |r| <= |s| && r == s[..|r|]
    ensures r == [] || !IsWhitespace(r[|r| - 1])
    ensures AllWhitespace(s[|r|..])
  {
    TrailingWhitespaceSpec(s);
    s[..|s| - TrailingWhitespace(s)]
  }

  lemma AllWhitespaceConcat(a: string, b: string)
    requires AllWhitespace(a) && AllWhitespace(b)
    ensures AllWhitespace(a + b)
  {
    assert forall i :: 0 <= i < |a| + |b| ==> (a + b)[i] == if i < |a| then a[i] else b[i - |a|];
  }

  /** `sub` occurs in `s` starting at position `k`. */
  predicate InfixAt(s: string, sub: string, k: int) {
    0 <= k && k + |sub| <= |s| && s[k..k + |sub|] == sub
  }

  /** JavaScript `s.trim()`: `s` without its leading and trailing whitespace. */
  function Trim(s: string): (r: string)
    ensures r == [] || (!IsWhitespace(r[0]) && !IsWhitespace(r[|r| - 1]))
  {
    var t := TrimStart(s);
    var r := TrimEnd(t);
    assert r != [] ==> r[0] == t[0];
    r
  }

  /** Trimming removes only a whitespace prefix and a whitespace suffix: `s` is `lead + Trim(s) + trail`. */
  lemma TrimSplits(s: string) returns (lead: string, trail: string)
    ensures s == lead + (Trim(s) + trail)
    ensures AllWhitespace(lead) && AllWhitespace(trail)
  {
    var t := TrimStart(s);
    var r := TrimEnd(t);
    lead, trail := s[..|s| - |t|], t[|r|..];
    assert t == r + trail;
    assert s == lead + t;
  }

  /** Trimming yields the empty string exactly when the input is nothing but whitespace. */
  lemma TrimEmptyIff(s: string)
    ensures Trim(s) == [] <==> AllWhitespace(s)
  {
    if Trim(s) == [] {
      var lead, trail := TrimSplits(s);
      assert Trim(s) + trail == trail;
      assert s == lead + trail;
      AllWhitespaceConcat(lead, trail);
    }
    if AllWhitespace(s) {
      WhitespaceTrimsAway(s);
    }
  }

  lemma WhitespaceTrimsAway(s: string)
    requires AllWhitespace(s)
    ensures Trim(s) == []
  {
  }

  /** Neither end of `s` is whitespace: how every result of `Trim` looks. */
  predicate Clean(s: string) {
    s == [] || (!IsWhitespace(s[0]) && !IsWhitespace(s[|s| - 1]))
  }

  /** A string with no whitespace at either end is its own trim. */
  lemma TrimClean(s: string)
    requires Clean(s)
    ensures Trim(s) == s
  {
    if s != [] {
      assert LeadingWhitespace(s) == 0;
      assert TrailingWhitespace(s) == 0;
    }
  }

  /**
   * `` `${a} ${b}`.trim() `` for parts without surrounding whitespace: both parts with
   * one space between them, or just the non-empty part, or the empty string.
   */
  lemma TrimJoin(a: string, b: string)
    requires Clean(a) && Clean(b)
    ensures Trim(a + " " + b) == if a == "" then b else if b == "" then a else a + " " + b
  {
    var s := a + " " + b;
    if a == "" && b == "" {
      assert s == " ";
      WhitespaceTrimsAway(s);
    } else if a == "" {
      assert s == " " + b;
      assert s[1..] == b;
      assert LeadingWhitespace(s) == 1 + LeadingWhitespace(b) == 1;
      assert TrimStart(s) == b;
      TrimClean(b);
    } else if b == "" {
      assert s == a + " ";
      assert s[..|s| - 1] == a;
      assert TrailingWhitespace(s) == 1 + TrailingWhitespace(a) == 1;
      assert LeadingWhitespace(s) == 0;
      assert TrimStart(s) == s;
      assert TrimEnd(s) == a;
    } else {
      assert s[0] == a[0] && s[|s| - 1] == b[|b| - 1];
      TrimClean(s);
    }
  }

  /** Trimming twice is trimming once. */
  lemma TrimIdempotent(s: string)
    ensures Trim(Trim(s)) == Trim(s)
  {
    var r := Trim(s);
    if r != [] {
      assert TrimStart(r) == r;
      assert TrimEnd(r) == r;
    }
  }

  /** JavaScript `toLowerCase` on one code point, for ASCII and Latin-1 capitals (Danish Æ, Ø, Å included). */
  function LowerChar(c: char): char {
    if 'A' <= c <= 'Z' || ('\U{00C0}' <= c <= '\U{00DE}' && c != '\U{00D7}') then
      (c as int + 32) as char
    else c
  }

  /** JavaScript `toUpperCase` on one code point, for ASCII and Latin-1 small letters (æ, ø, å included). */
  function UpperChar(c: char): char {
    if 'a' <= c <= 'z' || ('\U{00E0}' <= c <= '\U{00FE}' && c != '\U{00F7}') then
      (c as int - 32) as char
    else c
  }

  /** JavaScript `s.toLowerCase()`, code point by code point (see `ToLowerAt`). */
  function ToLower(s: string): (r: string)
    ensures |r| == |s|
  {
    if s == [] then [] else [LowerChar(s[0])] + ToLower(s[1..])
  }

  /** JavaScript `s.toUpperCase()`, code point by code point (see `ToUpperAt`). */
  function ToUpper(s: string): (r: string)
    ensures |r| == |s|
  {
    if s == [] then [] else [UpperChar(s[0])] + ToUpper(s[1..])
  }

  /** Lower-casing maps each code point on its own and keeps positions. */
  lemma {:induction false} ToLowerAt(s: string)
    ensures forall i :: 0 <= i < |s| ==> ToLower(s)[i] == LowerChar(s[i])
  {
    if s != [] {
      ToLowerAt(s[1..]);
      assert forall i :: 1 <= i < |s| ==> ToLower(s)[i] == ToLower(s[1..])[i - 1];
    }
  }

  /** Upper-casing maps each code point on its own and keeps positions. */
  lemma {:induction false} ToUpperAt(s: string)
    ensures forall i :: 0 <= i < |s| ==> ToUpper(s)[i] == UpperChar(s[i])
  {
    if s != [] {
      ToUpperAt(s[1..]);
      assert forall i :: 1 <= i < |s| ==> ToUpper(s)[i] == ToUpper(s[1..])[i - 1];
    }
  }

  /** Lower-casing twice is lower-casing once (the search filters compare lower-cased text). */
  lemma {:induction false} ToLowerIdempotent(s: string)
    ensures ToLower(ToLower(s)) == ToLower(s)
  {
    ToLowerAt(s);
    ToLowerAt(ToLower(s));
    forall i | 0 <= i < |s|
      ensures ToLower(ToLower(s))[i] == ToLower(s)[i]
    {
      var c := s[i];
      assert LowerChar(LowerChar(c)) == LowerChar(c);
    }
  }

  /** JavaScript `s.includes(sub)`: `sub` occurs in `s` as a contiguous run. */
  predicate Contains(s: string, sub: string) {
    exists i :: 0 <= i <= |s| && InfixAt(s, sub, i)
  }

  /** A run-by-run search that decides `Contains`, usable on concrete text. */
  function ContainsFrom(s: string, sub: string, from: nat): (b: bool)
    requires from <= |s|
    ensures b <==> exists i :: from <= i && InfixAt(s, sub, i)
    decreases |s| - from
  {
    if from + |sub| > |s| then false
    else if MatchesFrom(s, sub, from, 0) then assert InfixAt(s, sub, from); true
    else ContainsFrom(s, sub, from + 1)
  }

  /** Character by character: `sub` from its index `k` on appears in `s` from index `at + k` on. */
  function MatchesFrom(s: string, sub: string, at: nat, k: nat): (b: bool)
    requires k <= |sub| && at + |sub| <= |s|
    ensures b <==> s[at + k..at + |sub|] == sub[k..]
    decreases |sub| - k
  {
    if k == |sub| then true
    else if s[at + k] != sub[k] then false
    else
      var b := MatchesFrom(s, sub, at, k + 1);
      assert s[at + k..at + |sub|] == [s[at + k]] + s[at + k + 1..at + |sub|];
      assert sub[k..] == [sub[k]] + sub[k + 1..];
      b
  }

  /** Every string contains the empty string (so an empty search term matches any defined field). */
  lemma ContainsEmpty(s: string)
    ensures Contains(s, "")
  {
    assert InfixAt(s, "", 0);
  }

  /** JavaScript `s.slice(0, n)`: at most the first `n` characters. */
  function Take(s: string, n: nat): (r: string)
    ensures |r| == if |s| < n then |s| else n
    ensures r == s[..|r|]
  {
    if |s| <= n then s else s[..n]
  }

  /** JavaScript `s || fallback` for a string: the fallback replaces the empty string. */
  function OrElse(s: string, fallback: string): (r: string)
    ensures s != "" ==> r == s
    ensures s == "" ==> r == fallback
  {
    if s == "" then fallback else s
  }

  /** JavaScript `field || fallback` for an optional string field: a missing or empty field gives the fallback. */
  function OptOrElse(o: Option<string>, fallback: string): (r: string)
    ensures o.Some? && o.value != "" ==> r == o.value
    ensures (o.None? || o.value == "") ==> r == fallback
  {
    OrElse(o.GetOr(""), fallback)
  }
}
