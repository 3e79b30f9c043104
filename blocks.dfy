/** Reading an indented literal block of a man page: the line-continuation
    rule `next_segment` and the per-line logic shared by the code and the
    tags states of the extractor (misc/man-test.py:174-189). */
module Blocks {
  import opened Wrappers
  import opened Strings
  import opened Regexes

  /** `next_segment`: a trailing backslash joins the line with the next
      one; any other line is ended with a line feed. */
  function NextSegment(line: string): string
  {
    if |line| > 0 && line[|line| - 1] == '\\' then line[..|line| - 1] else line + "\n"
  }

  /** A backslash added to any text is taken off again, with no line feed. */
  lemma NextSegmentBackslash(x: string)
    ensures NextSegment(x + "\\") == x
  {
    assert (x + "\\")[..|x|] == x;
  }

  /** What a block accumulates from a run of stripped lines. */
  function JoinSegments(rests: seq<string>): string
  {
    if rests == [] then [] else NextSegment(rests[0]) + JoinSegments(rests[1..])
  }

  function Backslashed(pieces: seq<string>): (r: seq<string>)
    ensures |r| == |pieces|
    ensures forall k :: 0 <= k < |r| ==> r[k] == pieces[k] + "\\"
  {
    if pieces == [] then [] else [pieces[0] + "\\"] + Backslashed(pieces[1..])
  }

  /** The continuation law: a logical line wrapped over several physical
      lines, every one but the last ending in a backslash, is read back as
      the pieces joined with no break and one line feed at the end. */
  lemma {:induction false} ContinuationLaw(pieces: seq<string>, last: string)
    requires !(|last| > 0 && last[|last| - 1] == '\\')
    ensures JoinSegments(Backslashed(pieces) + [last]) == Concat(pieces) + last + "\n"
  {
    var rs := Backslashed(pieces) + [last];
    if pieces == [] {
      assert rs == [last];
      assert JoinSegments(rs) == NextSegment(last) + JoinSegments([]);
    } else {
      var p := pieces[0] + "\\";
      assert rs[0] == p && rs[1..] == Backslashed(pieces[1..]) + [last];
      assert NextSegment(p) == pieces[0] by {
        assert p[..|p| - 1] == pieces[0];
      }
      ContinuationLaw(pieces[1..], last);
      var t := Concat(pieces[1..]);
      assert JoinSegments(rs) == pieces[0] + (t + last + "\n");
      AppendAssoc(pieces[0], t + last, "\n");
      AppendAssoc(pieces[0], t, last);
    }
  }

  /** A finished block: it ends in exactly one line feed, with neither a
      carriage return nor a line feed before it. */
  predicate Normalized(b: string)
  {
    |b| >= 1 && b[|b| - 1] == '\n' && (|b| >= 2 ==> b[|b| - 2] != '\r' && b[|b| - 2] != '\n')
  }

  /** `sink.rstrip('\r\n') + '\n'` */
  function Normalize(sink: string): (r: string)
    ensures Normalized(r)
  {
    RStripNewlines(sink) + "\n"
  }

  /** The finished block is the buffer up to its final line feed, and only
      `\r` and `\n` characters were dropped from the buffer's end. */
  lemma NormalizeStrips(sink: string)
    ensures var r := Normalize(sink);
      && |r| - 1 <= |sink| && r[..|r| - 1] == sink[..|r| - 1]
      && forall i :: |r| - 1 <= i < |sink| ==> sink[i] == '\r' || sink[i] == '\n'
  {
  }

  /** Normalizing a finished block changes nothing. */
  lemma NormalizeIdempotent(b: string)
    requires Normalized(b)
    ensures Normalize(b) == b
  {
  }

  /** The outcome of one line in the code or tags state. */
  datatype BlockAction =
    | Absorb(prefix: Option<string>, sink: string)  // the line belongs to the block
    | Close(block: string)                          // the line ends the block

  /** The shared block logic for one stripped line, given the prefix found
      so far (`None` for Python's `False`) and the buffer; a closed block
      is the normalized buffer (`BlockLineRules` states the rest). */
  function ReadBlockLine(prefix: Option<string>, sink: string, line: string): (r: BlockAction)
    ensures r.Close? ==> r.block == Normalize(sink)
  {
    if prefix.Some? then
      match MatchPrefixed(prefix.value, line)
      case Some(rest) => Absorb(prefix, sink + NextSegment(rest))
      case None => if line == "" then Absorb(prefix, sink + "\n") else Close(Normalize(sink))
    else
      match MatchIndented(line)
      case Some((p, rest)) => Absorb(Some(p), sink + NextSegment(rest))
      case None => if MatchBlankLine(line) then Absorb(None, sink) else Close(Normalize(sink))
  }

  /** The block-line rules. With a prefix, a line carrying it adds
      `next_segment` of the rest, an empty line adds a line feed and any
      other line closes the block. Without one, a line matching
      `^([ \t]+)(.+)$` fixes group 1 as the prefix and adds `next_segment`
      of group 2, a blank line is skipped, and any other line closes the
      block. Blank lines never close a block before the prefix is fixed. */
  lemma BlockLineRules(prefix: Option<string>, sink: string, line: string)
    ensures var r := ReadBlockLine(prefix, sink, line);
      && (prefix.Some? && MatchPrefixed(prefix.value, line).Some? ==>
            r == Absorb(prefix, sink + NextSegment(line[|prefix.value|..])))
      && (prefix.Some? && MatchPrefixed(prefix.value, line).None? ==>
            r == if line == "" then Absorb(prefix, sink + "\n") else Close(Normalize(sink)))
      && (prefix.None? && MatchIndented(line).Some? ==>
            r == Absorb(Some(MatchIndented(line).value.0), sink + NextSegment(MatchIndented(line).value.1)))
      && (prefix.None? && MatchIndented(line).None? ==>
            r == if MatchBlankLine(line) then Absorb(None, sink) else Close(Normalize(sink)))
      && (prefix.None? && AllBlank(line) ==> r.Absorb?)
      && (prefix.None? && r.Absorb? && r.prefix.None? ==> r.sink == sink && AllBlank(line) && |line| <= 1)
      && (prefix.None? && r.Absorb? && r.prefix.Some? ==>
            r.prefix.value != [] && AllBlank(r.prefix.value) && StartsWith(line, r.prefix.value) &&
            r.sink == sink + NextSegment(line[|r.prefix.value|..]))
      && (r.Close? ==> Normalized(r.block))
  {
    if prefix.Some? {
      var m := MatchPrefixed(prefix.value, line);
      if m.Some? {
        assert line[|prefix.value|..] == m.value by {
          assert line == prefix.value + m.value;
        }
      }
    } else if MatchIndented(line).Some? {
      var g := MatchIndented(line).value;
      assert line == g.0 + g.1;
      assert StartsWith(line, g.0) && line[|g.0|..] == g.1;
    }
  }

  // ---------------------------------------------------------------------
  // Indentation does not matter

  /** Reading a run of stripped lines into a block, until one closes it. */
  function ReadLines(prefix: Option<string>, sink: string, lines: seq<string>): BlockAction
    decreases |lines|
  {
    if lines == [] then Absorb(prefix, sink)
    else
      match ReadBlockLine(prefix, sink, lines[0])
      case Absorb(p, k) => ReadLines(p, k, lines[1..])
      case Close(b) => Close(b)
  }

  lemma IndentedSplit(p: string, x: string)
    requires p != [] && AllBlank(p) && x != [] && !IsBlank(x[0])
    requires '\n' !in p + x
    ensures MatchIndented(p + x) == Some((p, x))
  {
    var line := p + x;
    assert line[0] == p[0];
    var r := MatchIndented(line).value;
    var a, b := r.0, r.1;
    assert forall i :: 0 <= i < |p| ==> IsBlank(line[i]);
    assert forall i :: 0 <= i < |a| ==> IsBlank(line[i]);
    assert !IsBlank(line[|p|]) && |b| == |line| - |a| && b[0] == line[|a|];
    assert |a| == |p|;
    assert a == line[..|p|] == p;
    assert b == line[|p|..] == x;
  }

  /** A line `p + x` carries prefix `p` and adds `NextSegment(x)`. */
  lemma PrefixedLine(p: string, sink: string, x: string)
    requires '\n' !in x
    ensures ReadBlockLine(Some(p), sink, p + x) == Absorb(Some(p), sink + NextSegment(x))
  {
    var line := p + x;
    assert line[..|p|] == p && line[|p|..] == x;
    assert StartsWith(line, p);
  }

  /** A block as it is written: every line given the same indentation
      `p`, except that an empty line stays empty. */
  function Layout(p: string, xs: seq<string>): (r: seq<string>)
    ensures |r| == |xs|
  {
    if xs == [] then [] else [if xs[0] == "" then "" else p + xs[0]] + Layout(p, xs[1..])
  }

  /** Line `k` of a written block is empty when line `k` of the text is,
      and otherwise that line with the indentation in front. */
  lemma {:induction false} LayoutAt(p: string, xs: seq<string>)
    ensures forall k :: 0 <= k < |xs| ==> Layout(p, xs)[k] == if xs[k] == "" then "" else p + xs[k]
  {
    if xs != [] {
      LayoutAt(p, xs[1..]);
      assert Layout(p, xs) == [if xs[0] == "" then "" else p + xs[0]] + Layout(p, xs[1..]);
    }
  }

  /** The first line and the rest of a written block. */
  lemma LayoutCons(p: string, xs: seq<string>)
    requires xs != []
    ensures Layout(p, xs)[0] == (if xs[0] == "" then "" else p + xs[0]) && Layout(p, xs)[1..] == Layout(p, xs[1..])
  {
  }

  /** Once the prefix is fixed, an empty line reads like a line holding only
      the prefix: both add a line feed, the continuation of an empty rest. */
  lemma EmptyLineAsPrefix(p: string, sink: string)
    requires p != []
    ensures ReadBlockLine(Some(p), sink, "") == ReadBlockLine(Some(p), sink, p)
    ensures ReadBlockLine(Some(p), sink, "") == Absorb(Some(p), sink + NextSegment(""))
  {
    PrefixedLine(p, sink, "");
    assert p + "" == p;
  }

  /** `n` empty lines, stripped. */
  function Empties(n: nat): (r: seq<string>)
    ensures |r| == n
    ensures forall k :: 0 <= k < |r| ==> r[k] == ""
  {
    if n == 0 then [] else [""] + Empties(n - 1)
  }

  /** Once the prefix is fixed, each empty line adds one line feed. */
  lemma {:induction false} EmptiesRead(p: string, sink: string, n: nat)
    requires p != []
    ensures ReadLines(Some(p), sink, Empties(n)) == Absorb(Some(p), sink + LineFeeds(n))
    decreases n
  {
    if n == 0 {
      assert sink + LineFeeds(n) == sink;
    } else {
      assert Empties(n)[0] == "" && Empties(n)[1..] == Empties(n - 1);
      EmptyLineAsPrefix(p, sink);
      assert NextSegment("") == "\n";
      EmptiesRead(p, sink + "\n", n - 1);
      AppendAssoc(sink, "\n", LineFeeds(n - 1));
    }
  }

  /** Once the prefix is `p`, a written block adds its text by the
      continuation rule, its empty lines included. */
  lemma {:induction false} PrefixedLayout(p: string, sink: string, xs: seq<string>)
    requires p != []
    requires forall i :: 0 <= i < |xs| ==> '\n' !in xs[i]
    ensures ReadLines(Some(p), sink, Layout(p, xs)) == Absorb(Some(p), sink + JoinSegments(xs))
    decreases |xs|
  {
    if xs != [] {
      if xs[0] == "" {
        EmptyLineAsPrefix(p, sink);
      } else {
        PrefixedLine(p, sink, xs[0]);
      }
      LayoutCons(p, xs);
      PrefixedLayout(p, sink + NextSegment(xs[0]), xs[1..]);
      AppendAssoc(sink, NextSegment(xs[0]), JoinSegments(xs[1..]));
    }
  }

  /** The first line of a block, indented by a run of blanks and starting
      with text, fixes that run as the prefix. */
  lemma FirstIndentedLine(p: string, x: string)
    requires p != [] && AllBlank(p) && x != [] && !IsBlank(x[0]) && '\n' !in x
    ensures ReadBlockLine(None, "", p + x) == Absorb(Some(p), NextSegment(x))
  {
    assert '\n' !in p;
    var line := p + x;
    assert forall i :: 0 <= i < |line| ==> line[i] == if i < |p| then p[i] else x[i - |p|];
    IndentedSplit(p, x);
    assert "" + NextSegment(x) == NextSegment(x);
  }

  /** A block written with any run of blanks as its indentation and empty
      lines left empty, its first line starting with text, is read as its
      text: the lines without the indentation, joined by the continuation
      rule. */
  lemma LayoutIrrelevant(p: string, xs: seq<string>)
    requires p != [] && AllBlank(p)
    requires xs != [] && xs[0] != [] && !IsBlank(xs[0][0])
    requires forall i :: 0 <= i < |xs| ==> '\n' !in xs[i]
    ensures ReadLines(None, "", Layout(p, xs)) == Absorb(Some(p), JoinSegments(xs))
  {
    FirstIndentedLine(p, xs[0]);
    LayoutCons(p, xs);
    PrefixedLayout(p, NextSegment(xs[0]), xs[1..]);
    assert NextSegment(xs[0]) + JoinSegments(xs[1..]) == JoinSegments(xs);
  }
}
