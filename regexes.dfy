/** One definition per regular expression of the extractor
    (misc/man-test.py, function `extract_test_cases`). Every one of them is
    applied to a line from which `rstrip('\r\n')` removed the line end, so
    the line never ends in a line feed and Python's `$` matches only at the
    very end. Python's `.` matches every character except a line feed;
    the class `[^"]` matches a line feed too. */
module Regexes {
  import opened Wrappers
  import opened Strings

  /** A character of the class `[ \t]`. */
  predicate IsBlank(c: char)
  {
    c == ' ' || c == '\t'
  }

  predicate AllBlank(s: string)
  {
    forall i :: 0 <= i < |s| ==> IsBlank(s[i])
  }

  /** The length of the run of blanks that starts at `i`. */
  function BlankRunEnd(s: string, i: nat): (r: nat)
    requires i <= |s|
    ensures i <= r <= |s|
    ensures forall j :: i <= j < r ==> IsBlank(s[j])
    ensures r < |s| ==> !IsBlank(s[r])
    decreases |s| - i
  {
    if i < |s| && IsBlank(s[i]) then BlankRunEnd(s, i + 1) else i
  }

  /** `re.search(f'^{prefix}(.*)$', line)`, the prefix being a run of
      blanks (so it stands for itself in the pattern); the result is group 1. */
  function MatchPrefixed(prefix: string, line: string): (r: Option<string>)
    ensures r.Some? <==> StartsWith(line, prefix) && '\n' !in line[|prefix|..]
    ensures r.Some? ==> prefix + r.value == line
  {
    if StartsWith(line, prefix) && '\n' !in line[|prefix|..] then
      assert line == line[..|prefix|] + line[|prefix|..];
      Some(line[|prefix|..])
    else
      None
  }

  /** `re.search('^([ \t]+)(.+)$', line)`, as the pair of groups 1 and 2.
      The greedy `[ \t]+` takes the whole leading run of blanks, except that
      it gives the last character back to `.+` when the line is nothing but
      blanks. */
  function MatchIndented(line: string): (r: Option<(string, string)>)
    ensures r.Some? <==> |line| >= 2 && IsBlank(line[0]) && '\n' !in line
    ensures r.Some? ==> r.value.0 + r.value.1 == line
    ensures r.Some? ==> r.value.0 != [] && AllBlank(r.value.0) && r.value.1 != []
    ensures r.Some? ==> !IsBlank(r.value.1[0]) || |r.value.1| == 1
  {
    var w := BlankRunEnd(line, 0);
    if w == 0 || '\n' in line then None
    else if w < |line| then
      assert line == line[..w] + line[w..];
      Some((line[..w], line[w..]))
    else if w >= 2 then
      assert line == line[..w - 1] + line[w - 1..];
      Some((line[..w - 1], line[w - 1..]))
    else None
  }

  /** `re.search('^([ \t]*)$', line)`: empty or only blanks. */
  predicate MatchBlankLine(line: string)
  {
    AllBlank(line)
  }

  /** Before the prefix is set, `^([ \t]+)(.+)$` is tried first, so the
      test `^([ \t]*)$` only decides the lines it does not match: the empty
      line and a single blank. */
  lemma BlankLineSkipped(line: string)
    ensures MatchIndented(line).None? && MatchBlankLine(line) <==> line == [] || (|line| == 1 && IsBlank(line[0]))
  {
  }

  /** `re.search('^"(input\.[^"]+)"$', line)`; the result is group 1. */
  function MatchInputName(line: string): (r: Option<string>)
    ensures r.Some? <==>
      |line| >= 9 && line[0] == '"' && line[|line| - 1] == '"' &&
      StartsWith(line[1..|line| - 1], "input.") && '"' !in line[1..|line| - 1]
    ensures r.Some? ==> line == "\"" + r.value + "\""
    ensures r.Some? ==> StartsWith(r.value, "input.") && |r.value| > 6 && '"' !in r.value
  {
    if |line| >= 9 && line[0] == '"' && line[|line| - 1] == '"' then
      var v := line[1..|line| - 1];
      assert line == "\"" + v + "\"";
      if StartsWith(v, "input.") && '"' !in v then Some(v) else None
    else
      None
  }

  /** `re.search('^.. code-block::.*', line)`: two characters other than a
      line feed, then ` code-block::`, then anything. */
  predicate MatchCodeBlock(line: string)
  {
    |line| >= 15 && line[0] != '\n' && line[1] != '\n' && line[2..15] == " code-block::"
  }

  /** `re.search('^"output.tags"$', line)`; the unescaped dot matches any
      character other than a line feed. */
  predicate MatchOutputTags(line: string)
  {
    |line| == 13 && line[..7] == "\"output" && line[7] != '\n' && line[8..] == "tags\""
  }

  /** `with[ \t]"([^"]+)"` matches at position `i`. */
  predicate WithAt(line: string, i: nat)
  {
    i + 7 <= |line| && line[i..i + 4] == "with" && IsBlank(line[i + 4]) &&
    line[i + 5] == '"' && line[i + 6] != '"' && '"' in line[i + 6..]
  }

  /** The first index of `c` in `s`. */
  function IndexOf(s: string, c: char): (r: nat)
    requires c in s
    ensures r < |s| && s[r] == c && c !in s[..r]
  {
    if s[0] == c then 0 else
      var r := IndexOf(s[1..], c);
      assert s[..r + 1] == [s[0]] + s[1..][..r];
      r + 1
  }

  /** Group 1 of `with[ \t]"([^"]+)"` matched at `i`: everything up to the
      next double quote. */
  function WithGroup(line: string, i: nat): string
    requires WithAt(line, i)
  {
    line[i + 6..i + 6 + IndexOf(line[i + 6..], '"')]
  }

  /** `re.search('with[ \t]"([^"]+)"', line)` started at `i`: group 1 of the
      leftmost match at or after `i` (`SearchWithFromLeftmost`). */
  function SearchWithFrom(line: string, i: nat): Option<string>
    decreases |line| - i
  {
    if |line| < i + 7 then
      None
    else if WithAt(line, i) then
      Some(WithGroup(line, i))
    else
      SearchWithFrom(line, i + 1)
  }

  /** The search from `i` finds nothing exactly when the pattern occurs at
      no position from `i` on, and otherwise gives the group at the
      leftmost occurrence. */
  lemma {:induction false} SearchWithFromLeftmost(line: string, i: nat)
    ensures var r := SearchWithFrom(line, i);
      && (r.None? <==> forall j :: i <= j ==> !WithAt(line, j))
      && (r.Some? ==> exists j :: i <= j && WithAt(line, j) && r.value == WithGroup(line, j) &&
                                  forall k :: i <= k < j ==> !WithAt(line, k))
    decreases |line| - i
  {
    if |line| < i + 7 {
      assert SearchWithFrom(line, i) == None;
    } else if WithAt(line, i) {
      assert SearchWithFrom(line, i) == Some(WithGroup(line, i));
    } else {
      assert SearchWithFrom(line, i) == SearchWithFrom(line, i + 1);
      SearchWithFromLeftmost(line, i + 1);
      var r := SearchWithFrom(line, i + 1);
      if r.Some? {
        var j :| i + 1 <= j && WithAt(line, j) && r.value == WithGroup(line, j) &&
                 forall k :: i + 1 <= k < j ==> !WithAt(line, k);
        assert forall k :: i <= k < j ==> !WithAt(line, k);
      } else {
        assert forall j :: i <= j ==> !WithAt(line, j);
      }
    }
  }

  /** `re.search('with[ \t]"([^"]+)"', line)`; the result is group 1. */
  function SearchWith(line: string): (r: Option<string>)
    ensures r.Some? ==> r.value != [] && '"' !in r.value
  {
    SearchWithFromLeftmost(line, 0);
    SearchWithFrom(line, 0)
  }

  /** The leftmost-match semantics of `re.search`. */
  lemma SearchWithLeftmost(line: string)
    ensures var r := SearchWith(line);
      && (r.None? <==> forall j :: !WithAt(line, j))
      && (r.Some? ==> exists j :: WithAt(line, j) && r.value == WithGroup(line, j) &&
                                  forall k :: k < j ==> !WithAt(line, k))
  {
    SearchWithFromLeftmost(line, 0);
  }

  /** `line == "::" or re.search('^.. code-block:: *tags$', line)` */
  predicate MatchTagsIntroducer(line: string)
  {
    line == "::" ||
    (|line| >= 19 && line[0] != '\n' && line[1] != '\n' && line[2..15] == " code-block::" &&
     line[|line| - 4..] == "tags" && forall j :: 15 <= j < |line| - 4 ==> line[j] == ' ')
  }

  /** The unescaped dots of `"output.tags"` and `.. code-block::` stand for
      any character but a line feed. */
  lemma UnescapedDots(dot: char, a: char, b: char, rest: string)
    ensures MatchOutputTags("\"output" + [dot] + "tags\"") <==> dot != '\n'
    ensures MatchCodeBlock([a, b] + " code-block::" + rest) <==> a != '\n' && b != '\n'
  {
    var o := "\"output" + [dot] + "tags\"";
    assert |o| == 13 && o[..7] == "\"output" && o[7] == dot && o[8..] == "tags\"";
    var c := [a, b] + " code-block::" + rest;
    assert c[0] == a && c[1] == b && c[2..15] == " code-block::";
  }

  /** The tags introducer admits any number of spaces, none included, and
      nothing else between `code-block::` and `tags`. */
  lemma TagsIntroducerSpaces(lead: string, gap: string)
    requires |lead| == 2 && lead[0] != '\n' && lead[1] != '\n'
    ensures MatchTagsIntroducer(lead + " code-block::" + gap + "tags") <==> forall k :: 0 <= k < |gap| ==> gap[k] == ' '
  {
    var line := lead + " code-block::" + gap + "tags";
    assert |line| == 19 + |gap| && line[0] == lead[0] && line[1] == lead[1];
    assert line[2..15] == " code-block::" && line[|line| - 4..] == "tags";
    assert forall k :: 0 <= k < |gap| ==> line[15 + k] == gap[k];
  }
}
