/**
 * The handful of Python `str` operations the scrapers use on exposition
 * text: `split(c)`, `split(c, 1)`, `strip()`, `strip('"')`, `split()` and
 * `startswith`.
 */
module Text {

  /** `c.isspace()` in Python: ASCII and Unicode white space. */
  predicate IsSpace(c: char) {
    || c == ' '
    || ('\t' <= c <= '\r')
    || ('\U{1c}' <= c <= '\U{1f}')
    || c == '\U{85}' || c == '\U{a0}' || c == '\U{1680}'
    || ('\U{2000}' <= c <= '\U{200a}')
    || c == '\U{2028}' || c == '\U{2029}' || c == '\U{202f}' || c == '\U{205f}' || c == '\U{3000}'
  }

  predicate IsQuote(c: char) { c == '"' }

  predicate StartsWith(s: string, prefix: string) {
    |prefix| <= |s| && s[..|prefix|] == prefix
  }

  /** Position of the first occurrence of `c` in `s`. */
  function IndexOf(s: string, c: char): (i: nat)
    requires c in s
    ensures i < |s| && s[i] == c && c !in s[..i]
  {
    if s[0] == c then 0 else 1 + IndexOf(s[1..], c)
  }

  /** The inverse of `SplitOn`: the parts with `c` between consecutive ones. */
  function JoinWith(parts: seq<string>, c: char): string
    requires |parts| >= 1
  {
    if |parts| == 1 then parts[0] else parts[0] + [c] + JoinWith(parts[1..], c)
  }

  /** `s.split(c)`: the maximal runs between occurrences of `c`, empty runs included. */
  function SplitOn(s: string, c: char): (parts: seq<string>)
    decreases |s|
    ensures |parts| >= 1
    ensures forall i :: 0 <= i < |parts| ==> c !in parts[i]
    ensures JoinWith(parts, c) == s
  {
    if c in s then
      var i := IndexOf(s, c);
      var rest := SplitOn(s[i + 1..], c);
      assert s == s[..i] + [c] + s[i + 1..];
      [s[..i]] + rest
    else
      [s]
  }

  /** `s.split(c, 1)` when `c in s`: the text before the first `c` and the text after it. */
  function SplitFirst(s: string, c: char): (kv: (string, string))
    requires c in s
    ensures kv.0 + [c] + kv.1 == s
    ensures c !in kv.0
  {
    var i := IndexOf(s, c);
    assert s == s[..i] + [c] + s[i + 1..];
    (s[..i], s[i + 1..])
  }

  /** `s.split(c, 1)[0]`: the text before the first `c`, or all of `s`. */
  function BeforeFirst(s: string, c: char): (r: string)
    ensures c !in r
    ensures StartsWith(s, r)
    ensures r == s || (|r| < |s| && s[|r|] == c)
  {
    if c in s then SplitFirst(s, c).0 else s
  }

  /** Drops the leading characters that satisfy `drop`. */
  function TrimStart(s: string, drop: char -> bool): (r: string)
    ensures |r| <= |s| && r == s[|s| - |r|..]
    ensures forall i :: 0 <= i < |s| - |r| ==> drop(s[i])
    ensures r != [] ==> !drop(r[0])
  {
    if s != [] && drop(s[0]) then TrimStart(s[1..], drop) else s
  }

  /** Drops the trailing characters that satisfy `drop`. */
  function TrimEnd(s: string, drop: char -> bool): (r: string)
    ensures |r| <= |s| && r == s[..|r|]
    ensures forall i :: |r| <= i < |s| ==> drop(s[i])
    ensures r != [] ==> !drop(r[|r| - 1])
  {
    if s != [] && drop(s[|s| - 1]) then TrimEnd(s[..|s| - 1], drop) else s
  }

  /**
   * `s.strip()` (with `drop` = IsSpace) and `s.strip('"')` (with `drop` = IsQuote):
   * the middle slice of `s` left once every leading and trailing character that
   * satisfies `drop` is removed.
   */
  function Strip(s: string, drop: char -> bool): (r: string)
    ensures var i := |s| - |TrimStart(s, drop)|;
            && i + |r| <= |s| && r == s[i..i + |r|]
            && (forall j :: 0 <= j < i ==> drop(s[j]))
            && (forall j :: i + |r| <= j < |s| ==> drop(s[j]))
    ensures r != [] ==> !drop(r[0]) && !drop(r[|r| - 1])
  {
    var t := TrimStart(s, drop);
    var r := TrimEnd(t, drop);
    TrimEndWithin(s, t, r, drop);
    r
  }

  /** Trimming the end of a suffix `t` of `s` leaves a slice of `s` followed only by dropped characters. */
  lemma TrimEndWithin(s: string, t: string, r: string, drop: char -> bool)
    requires |t| <= |s| && t == s[|s| - |t|..]
    requires |r| <= |t| && r == t[..|r|] && forall j :: |r| <= j < |t| ==> drop(t[j])
    ensures var i := |s| - |t|;
            && r == s[i..i + |r|]
            && forall j :: i + |r| <= j < |s| ==> drop(s[j])
  {
    var i := |s| - |t|;
    forall j | i + |r| <= j < |s|
      ensures drop(s[j])
    {
      assert s[j] == t[j - i];
    }
  }

  predicate NoSpace(s: string) {
    forall i :: 0 <= i < |s| ==> !IsSpace(s[i])
  }

  /** The characters of `s` that are not white space, in order. */
  function NonSpace(s: string): string {
    if s == [] then []
    else if IsSpace(s[0]) then NonSpace(s[1..])
    else [s[0]] + NonSpace(s[1..])
  }

  function Concat(words: seq<string>): string {
    if words == [] then [] else words[0] + Concat(words[1..])
  }

  lemma {:induction false} NonSpaceAppend(a: string, b: string)
    ensures NonSpace(a + b) == NonSpace(a) + NonSpace(b)
  {
    if a != [] {
      assert (a + b)[1..] == a[1..] + b;
      NonSpaceAppend(a[1..], b);
    } else {
      assert a + b == b;
    }
  }

  lemma {:induction false} NonSpaceOfWord(w: string)
    requires NoSpace(w)
    ensures NonSpace(w) == w
  {
    if w != [] {
      NonSpaceOfWord(w[1..]);
    }
  }

  /** Length of the run of non-space characters that starts `s`. */
  function WordLength(s: string): (n: nat)
    requires s != [] && !IsSpace(s[0])
    ensures 1 <= n <= |s| && NoSpace(s[..n])
    ensures n == |s| || IsSpace(s[n])
  {
    if |s| == 1 || IsSpace(s[1]) then 1
    else
      var m := WordLength(s[1..]);
      assert s[..m + 1] == [s[0]] + s[1..][..m];
      1 + m
  }

  /**
   * `s.split()`: the white-space separated tokens of `s`. Every token is
   * non-empty and free of white space, and together they hold exactly the
   * non-space characters of `s`, in order.
   */
  function Tokens(s: string): (toks: seq<string>)
    decreases |s|
    ensures forall i :: 0 <= i < |toks| ==> toks[i] != [] && NoSpace(toks[i])
    ensures Concat(toks) == NonSpace(s)
    ensures s != [] && !IsSpace(s[0]) ==> toks != [] && StartsWith(s, toks[0])
  {
    if s == [] then []
    else if IsSpace(s[0]) then Tokens(s[1..])
    else
      var n := WordLength(s);
      var rest := Tokens(s[n..]);
      assert s == s[..n] + s[n..];
      NonSpaceAppend(s[..n], s[n..]);
      NonSpaceOfWord(s[..n]);
      [s[..n]] + rest
  }

  predicate AllSpace(s: string) {
    forall i :: 0 <= i < |s| ==> IsSpace(s[i])
  }

  /** `gaps[0] + toks[0] + gaps[1] + ... + toks[n-1] + gaps[n]` */
  function Weave(gaps: seq<string>, toks: seq<string>): string
    requires |gaps| == |toks| + 1
  {
    if toks == [] then gaps[0] else gaps[0] + toks[0] + Weave(gaps[1..], toks[1..])
  }

  /** Runs of white space, every one strictly between two tokens non-empty. */
  predicate Gaps(gaps: seq<string>) {
    && (forall i :: 0 <= i < |gaps| ==> AllSpace(gaps[i]))
    && (forall i :: 0 < i < |gaps| - 1 ==> gaps[i] != [])
  }

  lemma WeaveSpace(c: char, g: seq<string>, toks: seq<string>)
    requires |g| == |toks| + 1
    ensures Weave([[c] + g[0]] + g[1..], toks) == [c] + Weave(g, toks)
  {
    var gaps := [[c] + g[0]] + g[1..];
    if toks == [] {
      assert Weave(gaps, toks) == gaps[0];
    } else {
      var rest := g[1..];
      assert gaps[1..] == rest;
      var w := Weave(rest, toks[1..]);
      var t := toks[0];
      assert Weave(g, toks) == g[0] + t + w;
      assert Weave(gaps, toks) == ([c] + g[0]) + t + w;
    }
  }

  lemma GapsSpace(c: char, g: seq<string>)
    requires IsSpace(c) && |g| >= 1 && Gaps(g)
    ensures Gaps([[c] + g[0]] + g[1..])
  {
    var gaps := [[c] + g[0]] + g[1..];
    forall i | 0 <= i < |gaps|
      ensures AllSpace(gaps[i])
    {
      if i > 0 {
        assert gaps[i] == g[i];
      } else {
        assert AllSpace(g[0]);
      }
    }
    forall i | 0 < i < |gaps| - 1
      ensures gaps[i] != []
    {
      assert gaps[i] == g[i];
    }
  }

  lemma WeaveWord(w: string, g: seq<string>, toks: seq<string>)
    requires |g| == |toks| + 1
    ensures Weave([[]] + g, [w] + toks) == w + Weave(g, toks)
  {
    var gaps: seq<string> := [[]] + g;
    var ts := [w] + toks;
    assert gaps[1..] == g;
    assert ts[1..] == toks;
    var rest := Weave(g, toks);
    assert Weave(gaps, ts) == gaps[0] + ts[0] + rest;
    assert gaps[0] + ts[0] == w;
  }

  lemma GapsWord(g: seq<string>, toks: seq<string>, t: string)
    requires |g| == |toks| + 1 && Gaps(g) && t == Weave(g, toks)
    requires toks != [] ==> toks[0] != [] && !IsSpace(toks[0][0])
    requires t != [] ==> IsSpace(t[0])
    ensures Gaps([[]] + g)
  {
    var gaps := [[]] + g;
    if toks != [] {
      assert t == g[0] + toks[0] + Weave(g[1..], toks[1..]);
      assert IsSpace(t[0]);
      if g[0] == [] {
        assert false;
      }
    }
    forall i | 0 <= i < |gaps|
      ensures AllSpace(gaps[i])
    {
      if i > 0 {
        assert gaps[i] == g[i - 1];
      }
    }
    forall i | 0 < i < |gaps| - 1
      ensures gaps[i] != []
    {
      assert gaps[i] == g[i - 1];
    }
  }

  /**
   * The tokens of `str.split()` are the maximal runs of non-space
   * characters: `s` is the tokens interleaved with runs of white space,
   * each run between two tokens being non-empty.
   */
  lemma {:induction false} TokensLayout(s: string) returns (gaps: seq<string>)
    decreases |s|
    ensures |gaps| == |Tokens(s)| + 1
    ensures Gaps(gaps)
    ensures s == Weave(gaps, Tokens(s))
  {
    if s == [] {
      gaps := [[]];
    } else if IsSpace(s[0]) {
      var g := TokensLayout(s[1..]);
      gaps := [[s[0]] + g[0]] + g[1..];
      WeaveSpace(s[0], g, Tokens(s[1..]));
      GapsSpace(s[0], g);
      assert s == [s[0]] + s[1..];
    } else {
      var n := WordLength(s);
      var rest := Tokens(s[n..]);
      var g := TokensLayout(s[n..]);
      gaps := [[]] + g;
      WeaveWord(s[..n], g, rest);
      GapsWord(g, rest, s[n..]);
      assert s == s[..n] + s[n..];
    }
  }
}
