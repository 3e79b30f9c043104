/** The option-shape heuristic `is_option` and the loop of `run_test_case`
    that turns a documented command line into the lines of the options
    file `args.ctags` and the input file name to pass to ctags
    (misc/man-test.py:57-62 and 81-101). */
module Options {
  import opened Wrappers
  import opened Strings

  predicate IsLowerOrUnderscore(ch: char)
  {
    'a' <= ch <= 'z' || ch == '_'
  }

  /** `--[a-z_]` occurs at position `i`. */
  predicate LongOptionAt(c: string, i: nat)
  {
    i + 3 <= |c| && c[i] == '-' && c[i + 1] == '-' && IsLowerOrUnderscore(c[i + 2])
  }

  /** `re.search('^-[a-z]$', c)`; `$` also matches before a final line feed. */
  predicate ShortOption(c: string)
  {
    (|c| == 2 || (|c| == 3 && c[2] == '\n')) && c[0] == '-' && 'a' <= c[1] <= 'z'
  }

  /** `re.search('--[a-z_].*', c)` started at `i`. */
  function HasLongOptionFrom(c: string, i: nat): (r: bool)
    ensures r <==> exists j :: i <= j && LongOptionAt(c, j)
    decreases |c| - i
  {
    if |c| < i + 3 then false
    else if LongOptionAt(c, i) then true
    else HasLongOptionFrom(c, i + 1)
  }

  /** `is_option`: `--` followed by a lower-case letter or an underscore
      anywhere in the token, or the whole token a dash and one lower-case
      letter. */
  function IsOption(c: string): (r: bool)
    ensures r <==> (exists j :: LongOptionAt(c, j)) || ShortOption(c)
  {
    HasLongOptionFrom(c, 0) || ShortOption(c)
  }

  const OptionsNone := "--options=NONE"

  /** A token the loop passes over without writing it: `--options=NONE`
      (the runner passes it itself) or the input file. */
  predicate Skipped(c: string)
  {
    c == OptionsNone || StartsWith(c, "input.")
  }

  /** A token that opens a regex pattern, `--regex-<LANG>=...`. */
  predicate StartsPattern(c: string)
  {
    StartsWith(c, "--regex-")
  }

  /** A token a pending pattern swallows. */
  predicate Absorbable(c: string)
  {
    !Skipped(c) && !StartsPattern(c) && !IsOption(c)
  }

  lemma PatternIsOption(r: string)
    requires StartsPattern(r)
    ensures !Skipped(r) && LongOptionAt(r, 0) && IsOption(r)
  {
  }

  lemma InputNotOptionsNone(c: string)
    ensures StartsWith(c, "input.") ==> c != OptionsNone
  {
    if StartsWith(c, "input.") {
      assert c[0] == 'i';
    }
  }

  /** The lines written to `args.ctags` (each followed by a line feed in the
      file) and the captured input file name (`inputf`). */
  datatype OptionsFile = OptionsFile(lines: seq<string>, inputFile: Option<string>)

  function Flush(pending: Option<string>): seq<string>
  {
    if pending.Some? then [pending.value] else []
  }

  /** What the loop does with the remaining tokens, given the pending
      pattern (`in_pattern`, `None` for `False`) and the input file so far. */
  function Reconstruct(tokens: seq<string>, pending: Option<string>, inputf: Option<string>): OptionsFile
    decreases |tokens|
  {
    if tokens == [] then OptionsFile(Flush(pending), inputf)
    else
      var c, rest := tokens[0], tokens[1..];
      if c == OptionsNone then Reconstruct(rest, pending, inputf)
      else if StartsWith(c, "input.") then Reconstruct(rest, pending, Some(c))
      else if StartsPattern(c) then Reconstruct(rest, Some(c), inputf)
      else if pending.Some? && !IsOption(c) then Reconstruct(rest, Some(pending.value + " " + c), inputf)
      else
        var o := Reconstruct(rest, None, inputf);
        OptionsFile(Flush(pending) + [c] + o.lines, o.inputFile)
  }

  /** The options file for a documented command line. */
  function OptionsFileOf(cmdline: string): OptionsFile
  {
    Reconstruct(Split(cmdline), None, None)
  }

  function RemoveSkipped(tokens: seq<string>): (r: seq<string>)
    ensures forall k :: 0 <= k < |r| ==> !Skipped(r[k])
  {
    if tokens == [] then []
    else (if Skipped(tokens[0]) then [] else [tokens[0]]) + RemoveSkipped(tokens[1..])
  }

  /** `tokens[i]` is an input file name and none comes after it. */
  ghost predicate LastInputAt(tokens: seq<string>, i: int)
  {
    0 <= i < |tokens| && StartsWith(tokens[i], "input.") &&
    forall j :: i < j < |tokens| ==> !StartsWith(tokens[j], "input.")
  }

  /** The loop of misc/man-test.py:81-101 over `t['cmdline'].split()`. */
  method WriteOptionsFile(cmdline: string) returns (lines: seq<string>, inputf: Option<string>)
    ensures OptionsFile(lines, inputf) == OptionsFileOf(cmdline)
    ensures OptionsNone !in lines
    ensures forall k :: 0 <= k < |lines| ==> !StartsWith(lines[k], "input.")
    ensures (forall i :: 0 <= i < |Split(cmdline)| ==> !StartsWith(Split(cmdline)[i], "input.")) ==> inputf.None?
    ensures inputf.Some? ==> exists i :: LastInputAt(Split(cmdline), i) && Split(cmdline)[i] == inputf.value
  {
    var tokens := Split(cmdline);
    inputf := None;
    lines := [];
    var inPattern: Option<string> := None;
    for i := 0 to |tokens|
      invariant var o := Reconstruct(tokens[i..], inPattern, inputf);
        lines + o.lines == Reconstruct(tokens, None, None).lines &&
        o.inputFile == Reconstruct(tokens, None, None).inputFile
    {
      var c := tokens[i];
      assert tokens[i..][1..] == tokens[i + 1..];
      if c == OptionsNone {
        continue;
      } else if StartsWith(c, "input.") {
        inputf := Some(c);
        continue;
      } else if StartsPattern(c) {
        inPattern := Some(c);
      } else if inPattern.Some? && !IsOption(c) {
        inPattern := Some(inPattern.value + " " + c);
      } else {
        if inPattern.Some? {
          lines := lines + [inPattern.value];
          inPattern := None;
        }
        lines := lines + [c];
      }
    }
    if inPattern.Some? {
      lines := lines + [inPattern.value];
    }
    ReconstructClean(tokens, None, None);
    InputFileIsLast(tokens, None, None);
  }

  /** Neither `--options=NONE` nor an input file name is ever written. */
  lemma {:induction false} ReconstructClean(tokens: seq<string>, pending: Option<string>, inputf: Option<string>)
    requires pending.None? || StartsPattern(pending.value)
    ensures var ls := Reconstruct(tokens, pending, inputf).lines;
      OptionsNone !in ls && forall k :: 0 <= k < |ls| ==> !StartsWith(ls[k], "input.")
    decreases |tokens|
  {
    if pending.Some? {
      PatternIsOption(pending.value);
    }
    if tokens != [] {
      var c, rest := tokens[0], tokens[1..];
      InputNotOptionsNone(c);
      if c == OptionsNone || StartsWith(c, "input.") {
        ReconstructClean(rest, pending, if c == OptionsNone then inputf else Some(c));
      } else if StartsPattern(c) {
        ReconstructClean(rest, Some(c), inputf);
      } else if pending.Some? && !IsOption(c) {
        var q := pending.value + " " + c;
        assert q[..8] == pending.value[..8];
        ReconstructClean(rest, Some(q), inputf);
      } else {
        ReconstructClean(rest, None, inputf);
      }
    }
  }

  /** The captured input file is the last token that starts with `input.`;
      when there is none, it is what was captured before. */
  lemma {:induction false} InputFileIsLast(tokens: seq<string>, pending: Option<string>, inputf: Option<string>)
    ensures var r := Reconstruct(tokens, pending, inputf).inputFile;
      && ((forall i :: 0 <= i < |tokens| ==> !StartsWith(tokens[i], "input.")) ==> r == inputf)
      && ((exists i :: 0 <= i < |tokens| && StartsWith(tokens[i], "input.")) ==>
            r.Some? && exists i :: LastInputAt(tokens, i) && tokens[i] == r.value)
    decreases |tokens|
  {
    if tokens != [] {
      var c, rest := tokens[0], tokens[1..];
      var p' := if c == OptionsNone || StartsWith(c, "input.") then pending
                else if StartsPattern(c) then Some(c)
                else if pending.Some? && !IsOption(c) then Some(pending.value + " " + c)
                else None;
      InputNotOptionsNone(c);
      var f' := if StartsWith(c, "input.") then Some(c) else inputf;
      assert Reconstruct(tokens, pending, inputf).inputFile == Reconstruct(rest, p', f').inputFile;
      InputFileIsLast(rest, p', f');
      var r := Reconstruct(rest, p', f').inputFile;
      if exists i :: 0 <= i < |rest| && StartsWith(rest[i], "input.") {
        var i :| LastInputAt(rest, i) && rest[i] == r.value;
        assert LastInputAt(tokens, i + 1);
      } else if StartsWith(c, "input.") {
        assert LastInputAt(tokens, 0);
      } else {
        forall i | 0 <= i < |tokens| ensures !StartsWith(tokens[i], "input.") {
          if i > 0 { assert tokens[i] == rest[i - 1]; }
        }
      }
    }
  }

  /** Skipped tokens never flush a pending pattern: the written lines are
      those of the command line with them taken out. */
  lemma {:induction false} SkippedDoNotFlush(tokens: seq<string>, pending: Option<string>, f: Option<string>, g: Option<string>)
    ensures Reconstruct(tokens, pending, f).lines == Reconstruct(RemoveSkipped(tokens), pending, g).lines
    decreases |tokens|
  {
    if tokens != [] {
      var c, rest := tokens[0], tokens[1..];
      var filtered := RemoveSkipped(tokens);
      if Skipped(c) {
        assert filtered == RemoveSkipped(rest);
        InputNotOptionsNone(c);
        SkippedDoNotFlush(rest, pending, if StartsWith(c, "input.") then Some(c) else f, g);
      } else {
        assert filtered == [c] + RemoveSkipped(rest) && filtered[1..] == RemoveSkipped(rest);
        if StartsPattern(c) {
          SkippedDoNotFlush(rest, Some(c), f, g);
        } else if pending.Some? && !IsOption(c) {
          SkippedDoNotFlush(rest, Some(pending.value + " " + c), f, g);
        } else {
          SkippedDoNotFlush(rest, None, f, g);
        }
      }
    }
  }

  /** A pending pattern swallows the tokens that do not look like options
      and is written, joined by single spaces, when the next option comes
      or the tokens run out. */
  lemma {:induction false} PendingAbsorbs(q: string, ws: seq<string>, rest: seq<string>, f: Option<string>)
    requires forall k :: 0 <= k < |ws| ==> Absorbable(ws[k])
    requires rest == [] || (!Skipped(rest[0]) && !StartsPattern(rest[0]) && IsOption(rest[0]))
    ensures Reconstruct(ws + rest, Some(q), f).lines == [JoinSpaces([q] + ws)] + Reconstruct(rest, None, f).lines
    decreases |ws|
  {
    if ws == [] {
      assert [q] + ws == [q];
      assert ws + rest == rest;
      PendingFlushed(q, rest, f);
    } else {
      var w := ws[0];
      assert (ws + rest)[0] == w && (ws + rest)[1..] == ws[1..] + rest;
      PendingAbsorbs(q + " " + w, ws[1..], rest, f);
      assert JoinSpaces([q + " " + w] + ws[1..]) == JoinSpaces([q] + ws) by {
        JoinSpacesCons(q + " " + w, ws[1..]);
        JoinSpacesCons(q, ws);
        JoinSpacesCons(w, ws[1..]);
        assert [w] + ws[1..] == ws;
      }
    }
  }

  lemma PendingFlushed(q: string, rest: seq<string>, f: Option<string>)
    requires rest == [] || (!Skipped(rest[0]) && !StartsPattern(rest[0]) && IsOption(rest[0]))
    ensures Reconstruct(rest, Some(q), f).lines == [q] + Reconstruct(rest, None, f).lines
  {
  }

  lemma JoinSpacesCons(a: string, ts: seq<string>)
    ensures JoinSpaces([a] + ts) == if ts == [] then a else a + " " + JoinSpaces(ts)
  {
  }

  /** `--regex-...` and the tokens it swallows are written as one line,
      before the option that ends it. */
  lemma PatternGroup(r: string, ws: seq<string>, rest: seq<string>, f: Option<string>)
    requires StartsPattern(r)
    requires forall k :: 0 <= k < |ws| ==> Absorbable(ws[k])
    requires rest == [] || (!Skipped(rest[0]) && !StartsPattern(rest[0]) && IsOption(rest[0]))
    ensures Reconstruct([r] + ws + rest, None, f).lines == [JoinSpaces([r] + ws)] + Reconstruct(rest, None, f).lines
  {
    PatternIsOption(r);
    assert ([r] + ws + rest)[0] == r && ([r] + ws + rest)[1..] == ws + rest;
    PendingAbsorbs(r, ws, rest, f);
  }

  /** A second `--regex-` token replaces a pending pattern, which is then
      never written. */
  lemma {:induction false} PatternReplaced(r1: string, ws: seq<string>, r2: string, rest: seq<string>, f: Option<string>)
    requires StartsPattern(r1) && StartsPattern(r2)
    requires forall k :: 0 <= k < |ws| ==> Absorbable(ws[k])
    ensures Reconstruct([r1] + ws + [r2] + rest, None, f) == Reconstruct([r2] + rest, None, f)
  {
    PatternIsOption(r1);
    assert ([r1] + ws + [r2] + rest)[0] == r1 && ([r1] + ws + [r2] + rest)[1..] == ws + ([r2] + rest);
    PendingReplaced(r1, ws, r2, rest, f);
  }

  lemma {:induction false} PendingReplaced(q: string, ws: seq<string>, r2: string, rest: seq<string>, f: Option<string>)
    requires StartsPattern(r2)
    requires forall k :: 0 <= k < |ws| ==> Absorbable(ws[k])
    ensures Reconstruct(ws + ([r2] + rest), Some(q), f) == Reconstruct([r2] + rest, None, f)
    decreases |ws|
  {
    PatternIsOption(r2);
    assert ([r2] + rest)[0] == r2 && ([r2] + rest)[1..] == rest;
    if ws != [] {
      assert (ws + ([r2] + rest))[0] == ws[0] && (ws + ([r2] + rest))[1..] == ws[1..] + ([r2] + rest);
      PendingReplaced(q + " " + ws[0], ws[1..], r2, rest, f);
    } else {
      assert ws + ([r2] + rest) == [r2] + rest;
    }
  }

  /** Without `--regex-` tokens every token that is not skipped is written
      on a line of its own, in command-line order. */
  lemma {:induction false} NoPatternKeepsOrder(tokens: seq<string>, f: Option<string>)
    requires forall k :: 0 <= k < |tokens| ==> !StartsPattern(tokens[k])
    ensures Reconstruct(tokens, None, f).lines == RemoveSkipped(tokens)
    decreases |tokens|
  {
    if tokens != [] {
      var c, rest := tokens[0], tokens[1..];
      InputNotOptionsNone(c);
      assert !StartsPattern(c);
      assert forall k :: 0 <= k < |rest| ==> !StartsPattern(rest[k]) by {
        assert forall k :: 0 <= k < |rest| ==> rest[k] == tokens[k + 1];
      }
      if Skipped(c) {
        NoPatternKeepsOrder(rest, if StartsWith(c, "input.") then Some(c) else f);
        assert RemoveSkipped(tokens) == RemoveSkipped(rest);
      } else {
        NoPatternKeepsOrder(rest, f);
        assert Reconstruct(tokens, None, f).lines == [c] + Reconstruct(rest, None, f).lines;
        assert RemoveSkipped(tokens) == [c] + RemoveSkipped(rest);
      }
    }
  }
}
