/** The few Python `str` operations the test runner relies on:
    `startswith`, `rstrip('\r\n')`, `split()` and `%d` formatting. */
module Strings {

  /** `s.startswith(p)` */
  predicate StartsWith(s: string, p: string)
  {
    |p| <= |s| && s[..|p|] == p
  }

  /** `s.rstrip('\r\n')`: removes every trailing carriage return and line feed. */
  function RStripNewlines(s: string): (r: string)
    ensures |r| <= |s| && r == s[..|r|]
    ensures r == [] || (r[|r| - 1] != '\r' && r[|r| - 1] != '\n')
    ensures forall i :: |r| <= i < |s| ==> s[i] == '\r' || s[i] == '\n'
  {
    if s != [] && (s[|s| - 1] == '\r' || s[|s| - 1] == '\n') then
      RStripNewlines(s[..|s| - 1])
    else
      s
  }

  /** Has no line end that `rstrip('\r\n')` would remove. */
  predicate Stripped(s: string)
  {
    s == [] || (s[|s| - 1] != '\r' && s[|s| - 1] != '\n')
  }

  /** Stripping a line as `readlines` returns it gives back the text. */
  lemma StripLined(s: string)
    requires Stripped(s)
    ensures RStripNewlines(s + "\n") == s
  {
    assert (s + "\n")[..|s|] == s;
  }

  /** A line feed at the end is stripped with the rest. */
  lemma StripFeed(t: string)
    ensures RStripNewlines(t + "\n") == RStripNewlines(t)
  {
    var u := t + "\n";
    assert u != [] && u[|u| - 1] == '\n' && u[..|u| - 1] == t;
  }

  /** `n` line feeds. */
  function LineFeeds(n: nat): (r: string)
    ensures |r| == n
  {
    if n == 0 then "" else "\n" + LineFeeds(n - 1)
  }

  /** Line feeds at the end are stripped with the rest. */
  lemma {:induction false} StripFeeds(t: string, n: nat)
    ensures RStripNewlines(t + LineFeeds(n)) == RStripNewlines(t)
    decreases n
  {
    if n == 0 {
      assert t + LineFeeds(n) == t;
    } else {
      StripFeeds(t + "\n", n - 1);
      AppendAssoc(t, "\n", LineFeeds(n - 1));
      StripFeed(t);
    }
  }

  lemma AppendAssoc(a: string, b: string, c: string)
    ensures a + (b + c) == a + b + c
  {
  }

  /** The characters for which Python's `str.isspace()` holds. */
  predicate IsSpace(c: char)
  {
    c == ' ' || '\t' <= c <= '\r' || '\U{1c}' <= c <= '\U{1f}' ||
    c == '\U{85}' || c == '\U{a0}' || c == '\U{1680}' ||
    '\U{2000}' <= c <= '\U{200a}' || c == '\U{2028}' || c == '\U{2029}' ||
    c == '\U{202f}' || c == '\U{205f}' || c == '\U{3000}'
  }

  predicate NoSpace(s: string)
  {
    forall i :: 0 <= i < |s| ==> !IsSpace(s[i])
  }

  /** The characters of `s` that are not white space, in order. */
  function NonSpace(s: string): string
  {
    if s == [] then [] else (if IsSpace(s[0]) then [] else [s[0]]) + NonSpace(s[1..])
  }

  function Concat(ts: seq<string>): string
  {
    if ts == [] then [] else ts[0] + Concat(ts[1..])
  }

  /** Tokens joined by single spaces. */
  function JoinSpaces(ts: seq<string>): string
  {
    if ts == [] then [] else if |ts| == 1 then ts[0] else ts[0] + " " + JoinSpaces(ts[1..])
  }

  /** The end of the run of non-space characters that starts at `i`. */
  function WordEnd(s: string, i: nat): (r: nat)
    requires i <= |s|
    ensures i <= r <= |s|
    ensures forall j :: i <= j < r ==> !IsSpace(s[j])
    ensures r < |s| ==> IsSpace(s[r])
    decreases |s| - i
  {
    if i == |s| || IsSpace(s[i]) then i else WordEnd(s, i + 1)
  }

  lemma {:induction false} NonSpaceOfWord(s: string, n: nat)
    requires n <= |s|
    requires forall j :: 0 <= j < n ==> !IsSpace(s[j])
    ensures NonSpace(s) == s[..n] + NonSpace(s[n..])
    decreases n
  {
    if n > 0 {
      assert s[1..][n - 1..] == s[n..];
      NonSpaceOfWord(s[1..], n - 1);
      assert s[..n] == [s[0]] + s[1..][..n - 1];
    }
  }

  /** `s.split()`: the maximal runs of non-space characters of `s`, in
      order; no token is empty and no token holds white space. */
  function Split(s: string): (r: seq<string>)
    ensures forall k :: 0 <= k < |r| ==> r[k] != [] && NoSpace(r[k])
    ensures Concat(r) == NonSpace(s)
    decreases |s|
  {
    if s == [] then []
    else if IsSpace(s[0]) then Split(s[1..])
    else
      var n := WordEnd(s, 0);
      var rest := Split(s[n..]);
      assert ([s[..n]] + rest)[1..] == rest;
      NonSpaceOfWord(s, n);
      [s[..n]] + rest
  }

  /** A word that runs up to white space or the end is the first token. */
  lemma SplitWordThen(w: string, rest: string)
    requires w != [] && NoSpace(w)
    requires rest == [] || IsSpace(rest[0])
    ensures Split(w + rest) == [w] + Split(rest)
  {
    var s := w + rest;
    assert s[0] == w[0];
    assert forall j :: 0 <= j < |w| ==> s[j] == w[j];
    assert rest != [] ==> s[|w|] == rest[0];
    assert WordEnd(s, 0) == |w|;
    assert s[..|w|] == w && s[|w|..] == rest;
  }

  /** White space in front of the string yields no token. */
  lemma SplitSpaceThen(c: char, x: string)
    requires IsSpace(c)
    ensures Split([c] + x) == Split(x)
  {
    assert ([c] + x)[1..] == x;
  }

  /** Splitting tokens that were joined by single spaces gives the tokens back. */
  lemma {:induction false} SplitJoinSpaces(ts: seq<string>)
    requires forall k :: 0 <= k < |ts| ==> ts[k] != [] && NoSpace(ts[k])
    ensures Split(JoinSpaces(ts)) == ts
  {
    if |ts| == 1 {
      SplitWordThen(ts[0], []);
      assert ts[0] + [] == ts[0];
    } else if |ts| > 1 {
      var j := JoinSpaces(ts[1..]);
      assert ts[0] + " " + j == ts[0] + (" " + j);
      SplitWordThen(ts[0], " " + j);
      assert (" " + j)[1..] == j;
      SplitJoinSpaces(ts[1..]);
    }
  }

  /** The character Python's `%d` writes for a digit. */
  function DigitChar(d: nat): (c: char)
    requires d < 10
    ensures '0' <= c <= '9'
  {
    "0123456789"[d]
  }

  /** `'%d' % n` for a non-negative integer. */
  function NatToString(n: nat): (r: string)
    ensures r != []
    ensures forall i :: 0 <= i < |r| ==> '0' <= r[i] <= '9'
    ensures r[0] == '0' ==> n == 0 && r == "0"
  {
    if n < 10 then [DigitChar(n)] else NatToString(n / 10) + [DigitChar(n % 10)]
  }

  /** The number a string of decimal digits denotes. */
  function DigitsValue(s: string): nat
    requires forall i :: 0 <= i < |s| ==> '0' <= s[i] <= '9'
  {
    if s == [] then 0 else DigitsValue(s[..|s| - 1]) * 10 + (s[|s| - 1] as int - '0' as int)
  }

  /** Reading back what `%d` wrote gives the number. */
  lemma {:induction false} NatToStringValue(n: nat)
    ensures DigitsValue(NatToString(n)) == n
  {
    var r := NatToString(n);
    if n >= 10 {
      NatToStringValue(n / 10);
      assert r[..|r| - 1] == NatToString(n / 10);
    }
    DigitValue(if n < 10 then n else n % 10);
  }

  lemma DigitValue(d: nat)
    requires d < 10
    ensures DigitChar(d) as int - '0' as int == d
  {
  }
}
