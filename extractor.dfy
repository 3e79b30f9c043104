/** `extract_test_cases` (misc/man-test.py:155-224): the single-pass,
    line-driven state machine that recovers test cases from a man page.
    `Step` is its transition function on one line and `Cases` the records
    it yields for a whole file; `ExtractTestCases` is the loop itself. */
module Extractor {
  import opened Wrappers
  import opened Strings
  import opened Regexes
  import opened Blocks
  import opened TestSpecs

  /** The states of the class `state`, in the order of their numbers 0 to 6. */
  datatype State = Start | Tags | Code | CodeDone | Input | Output | OutputAfterOptions

  /** The loop variables: `s`, `linum`, `nth`, the `test_spec` dictionary,
      `prefix` (`None` for `False`) and `sink`. */
  datatype Machine = Machine(s: State, linum: nat, nth: nat, spec: TestSpec, prefix: Option<string>, sink: string)

  const Init := Machine(Start, 0, 0, EmptySpec, None, "")

  /** The state-entry tests (misc/man-test.py:202-224), applied to the
      stripped line once the block logic has not consumed it. */
  function Enter(m: Machine, line: string): (r: Machine)
    ensures r.linum == m.linum && r.nth == m.nth
  {
    match m.s
    case Start =>
      if MatchInputName(line).Some? then
        m.(s := Input, spec := m.spec.(startLinum := Some(m.linum), inputFileName := MatchInputName(line)))
      else m
    case Input =>
      if MatchCodeBlock(line) then m.(s := Code, sink := "", prefix := None) else m
    case CodeDone =>
      if MatchOutputTags(line) then m.(s := Output) else m
    case Output =>
      if SearchWith(line).Some? then
        m.(s := OutputAfterOptions, spec := m.spec.(cmdline := SearchWith(line)))
      else m
    case OutputAfterOptions =>
      if MatchTagsIntroducer(line) then m.(s := Tags, sink := "", prefix := None) else m
    case _ => m
  }

  /** Storing a finished block (misc/man-test.py:189-200): the code block
      moves the machine on to `CodeDone`; the tags block completes the
      case, which is numbered, given its end line and yielded. */
  function CloseBlock(m: Machine, block: string): (r: (Machine, Option<TestSpec>))
    ensures r.0.linum == m.linum && r.0.sink == block
    ensures r.1.Some? <==> m.s != Code
    ensures r.1.Some? ==> r.1.value == r.0.spec && r.0.nth == m.nth + 1
  {
    if m.s == Code then
      (m.(sink := block, spec := m.spec.(code := Some(block)), s := CodeDone), None)
    else
      var spec := m.spec.(tags := Some(block), nth := Some(m.nth), endLinum := Some(m.linum));
      (m.(sink := block, spec := spec, nth := m.nth + 1, s := Start), Some(spec))
  }

  /** The state-entry tests are a dispatch on the state: the machine moves
      exactly when the one test of its state matches the line, and only to
      the state that test leads to. */
  lemma EnterMoves(m: Machine, line: string)
    ensures var r := Enter(m, line);
      && (r.s != m.s <==>
            || (m.s == Start && MatchInputName(line).Some?)
            || (m.s == Input && MatchCodeBlock(line))
            || (m.s == CodeDone && MatchOutputTags(line))
            || (m.s == Output && SearchWith(line).Some?)
            || (m.s == OutputAfterOptions && MatchTagsIntroducer(line)))
      && (r.s != m.s ==>
            || (m.s == Start && r.s == Input)
            || (m.s == Input && r.s == Code)
            || (m.s == CodeDone && r.s == Output)
            || (m.s == Output && r.s == OutputAfterOptions)
            || (m.s == OutputAfterOptions && r.s == Tags))
      && (r.s == m.s ==> r == m)
  {
  }

  /** One pass of the loop body on a line as `readlines` returned it; the
      second component is the record yielded on that pass, if any
      (`StepShape` states what it does). */
  function Step(m: Machine, raw: string): (r: (Machine, Option<TestSpec>))
    ensures r.0.linum == m.linum + 1
  {
    var line := RStripNewlines(raw);
    var m1 := m.(linum := m.linum + 1);
    if m.s == Code || m.s == Tags then
      match ReadBlockLine(m.prefix, m.sink, line)
      case Absorb(p, sink) => (m1.(prefix := p, sink := sink), None)
      case Close(block) =>
        var closed := CloseBlock(m1, block);
        (Enter(closed.0, line), closed.1)
    else
      (Enter(m1, line), None)
  }

  /** A record is yielded exactly when a tags block is being read and the
      line closes it; a line the block absorbs changes nothing but the
      buffer and the prefix; closing the code block stores it normalized. */
  lemma StepShape(m: Machine, raw: string)
    ensures var r := Step(m, raw);
      var a := ReadBlockLine(m.prefix, m.sink, RStripNewlines(raw));
      && (r.1.Some? <==> m.s == Tags && a.Close?)
      && ((m.s == Code || m.s == Tags) && a.Absorb? ==>
            r.0 == m.(linum := m.linum + 1, prefix := a.prefix, sink := a.sink))
      && (m.s == Code && a.Close? ==> r.0.spec.code == Some(Normalize(m.sink)))
  {
  }

  function Emitted(o: Option<TestSpec>): seq<TestSpec>
  {
    if o.Some? then [o.value] else []
  }

  /** The records yielded while the lines are read from machine `m`. */
  function Fold(m: Machine, lines: seq<string>): seq<TestSpec>
    decreases |lines|
  {
    if lines == [] then [] else
      var next := Step(m, lines[0]);
      Emitted(next.1) + Fold(next.0, lines[1..])
  }

  /** The machine after the lines are read from `m`. */
  function Run(m: Machine, lines: seq<string>): Machine
    decreases |lines|
  {
    if lines == [] then m else Run(Step(m, lines[0]).0, lines[1..])
  }

  /** The records `extract_test_cases` yields for a file, each one a
      snapshot of the dictionary at its `yield`. */
  function Cases(lines: seq<string>): seq<TestSpec>
  {
    Fold(Init, lines)
  }

  /** The loop variables of `extract_test_cases` as the fields of one
      object; `Feed` is one pass of the loop body. */
  class LineReader {
    var s: State
    var linum: nat
    var nth: nat
    var testSpec: TestSpec
    var prefix: Option<string>
    var sink: string

    function Current(): Machine
      reads this
    {
      Machine(s, linum, nth, testSpec, prefix, sink)
    }

    /** misc/man-test.py:165-168 */
    constructor ()
      ensures Current() == Init
    {
      s, linum, nth, testSpec, prefix, sink := Start, 0, 0, EmptySpec, None, "";
    }

    /** One pass of the loop body on a line as `readlines` returned it. */
    method Feed(raw: string) returns (yielded: Option<TestSpec>)
      modifies this
      ensures (Current(), yielded) == Step(old(Current()), raw)
    {
      linum := linum + 1;
      var line := RStripNewlines(raw);
      var consumed;
      consumed, yielded := ReadBlock(line);
      if !consumed {
        EnterState(line);
      }
    }

    /** The code and tags states (misc/man-test.py:174-200): `consumed` when
        the line belongs to the block, otherwise the block is stored and the
        line falls through to the state-entry tests. */
    method ReadBlock(line: string) returns (consumed: bool, yielded: Option<TestSpec>)
      modifies this
      ensures old(s) != Code && old(s) != Tags ==> !consumed && yielded.None? && Current() == old(Current())
      ensures old(s) == Code || old(s) == Tags ==>
        match ReadBlockLine(old(prefix), old(sink), line)
        case Absorb(p, k) => consumed && yielded.None? && Current() == old(Current()).(prefix := p, sink := k)
        case Close(b) => !consumed && (Current(), yielded) == CloseBlock(old(Current()), b)
    {
      consumed, yielded := false, None;
      if s == Tags || s == Code {
        if prefix.Some? {
          var m := MatchPrefixed(prefix.value, line);
          if m.Some? {
            sink := sink + NextSegment(m.value);
            return true, None;
          }
          if line == "" {
            sink := sink + "\n";
            return true, None;
          }
        } else if MatchIndented(line).Some? {
          var m := MatchIndented(line).value;
          prefix := Some(m.0);
          sink := sink + NextSegment(m.1);
          return true, None;
        } else if MatchBlankLine(line) {
          return true, None;
        }

        sink := Normalize(sink);

        if s == Code {
          testSpec := testSpec.(code := Some(sink));
          s := CodeDone;
        } else {
          testSpec := testSpec.(tags := Some(sink));
          testSpec := testSpec.(nth := Some(nth));
          nth := nth + 1;
          testSpec := testSpec.(endLinum := Some(linum));
          s := Start;
          yielded := Some(testSpec);
        }
      }
    }

    /** The state-entry tests (misc/man-test.py:202-224); each one ends the
        pass with `continue`, so at most one of them fires. */
    method EnterState(line: string)
      modifies this
      ensures Current() == Enter(old(Current()), line)
    {
      if s == Start && MatchInputName(line).Some? {
        testSpec := testSpec.(startLinum := Some(linum));
        testSpec := testSpec.(inputFileName := MatchInputName(line));
        s := Input;
      } else if s == Input && MatchCodeBlock(line) {
        sink := "";
        prefix := None;
        s := Code;
      } else if s == CodeDone && MatchOutputTags(line) {
        s := Output;
      } else if s == Output && SearchWith(line).Some? {
        testSpec := testSpec.(cmdline := SearchWith(line));
        s := OutputAfterOptions;
      } else if s == OutputAfterOptions && MatchTagsIntroducer(line) {
        sink := "";
        prefix := None;
        s := Tags;
      }
    }
  }

  /** `extract_test_cases` run over a whole file, collecting what it yields. */
  method ExtractTestCases(lines: seq<string>) returns (cases: seq<TestSpec>)
    ensures cases == Cases(lines)
    ensures forall k :: 0 <= k < |cases| ==>
      WellFormedCase(cases[k]) && cases[k].endLinum.value <= |lines| && cases[k].nth == Some(k)
    ensures Chained(cases)
  {
    var reader := new LineReader();
    cases := [];
    for i := 0 to |lines|
      invariant reader.Current() == Run(Init, lines[..i])
      invariant cases == Cases(lines[..i])
    {
      assert lines[..i + 1] == lines[..i] + [lines[i]];
      AppendLine(lines[..i], lines[i]);
      var yielded := reader.Feed(lines[i]);
      if yielded.Some? {
        cases := cases + [yielded.value];
      }
    }
    assert lines[..|lines|] == lines;
    CasesWellFormed(lines);
  }

  // ---------------------------------------------------------------------
  // What the yielded records satisfy

  /** A yielded record: every key the extractor sets is present, the span
      is not empty, the input
      file name is `input.<ext>` and both blocks are normalized. */
  ghost predicate WellFormedCase(c: TestSpec)
  {
    Complete(c) && 1 <= c.startLinum.value < c.endLinum.value &&
    StartsWith(c.inputFileName.value, "input.") &&
    Normalized(c.code.value) && Normalized(c.tags.value)
  }

  /** Each record ends no later than any later one starts. */
  ghost predicate Chained(cs: seq<TestSpec>)
  {
    forall j, k :: 0 <= j < k < |cs| ==>
      cs[j].endLinum.Some? && cs[k].startLinum.Some? &&
      cs[j].endLinum.value <= cs[k].startLinum.value
  }

  /** What holds of the dictionary in each state. */
  ghost predicate Inv(m: Machine)
  {
    && (m.s != Start ==>
          m.spec.startLinum.Some? && 1 <= m.spec.startLinum.value <= m.linum &&
          m.spec.inputFileName.Some? && StartsWith(m.spec.inputFileName.value, "input."))
    && (m.s == CodeDone || m.s == Output || m.s == OutputAfterOptions || m.s == Tags ==>
          m.spec.code.Some? && Normalized(m.spec.code.value))
    && (m.s == OutputAfterOptions || m.s == Tags ==> m.spec.cmdline.Some?)
  }

  /** The least line number any record yielded from `m` on can start at. */
  ghost function Low(m: Machine): nat
    requires Inv(m)
  {
    if m.s == Start then m.linum + 1 else m.spec.startLinum.value
  }

  /** What one step preserves and what a yielded record satisfies. */
  ghost predicate StepOk(m: Machine, next: (Machine, Option<TestSpec>))
    requires Inv(m)
  {
    && Inv(next.0)
    && Low(next.0) >= Low(m)
    && (next.1.None? ==> next.0.nth == m.nth)
    && (next.1.Some? ==>
          var c := next.1.value;
          && WellFormedCase(c) && c.endLinum.value == m.linum + 1 && c.nth == Some(m.nth) && next.0.nth == m.nth + 1
          && c.startLinum.value >= Low(m) && c.endLinum.value <= Low(next.0))
  }

  lemma StepFacts(m: Machine, raw: string)
    requires Inv(m)
    ensures StepOk(m, Step(m, raw))
  {
    var line := RStripNewlines(raw);
    if m.s == Code || m.s == Tags {
      var a := ReadBlockLine(m.prefix, m.sink, line);
      if a.Absorb? {
        StepAbsorbs(m, raw);
      } else {
        StepClosesBlock(m, raw);
      }
    } else {
      StepOutsideBlock(m, raw);
    }
  }

  lemma StepAbsorbs(m: Machine, raw: string)
    requires Inv(m) && (m.s == Code || m.s == Tags)
    requires ReadBlockLine(m.prefix, m.sink, RStripNewlines(raw)).Absorb?
    ensures StepOk(m, Step(m, raw))
  {
  }

  lemma StepClosesBlock(m: Machine, raw: string)
    requires Inv(m) && (m.s == Code || m.s == Tags)
    requires ReadBlockLine(m.prefix, m.sink, RStripNewlines(raw)).Close?
    ensures StepOk(m, Step(m, raw))
  {
    if m.s == Code {
      StepClosesCode(m, raw);
    } else {
      StepClosesTags(m, raw);
    }
  }

  /** A line that closes the block stores it, then falls through to the
      state-entry tests. */
  lemma StepCloses(m: Machine, raw: string)
    requires m.s == Code || m.s == Tags
    requires ReadBlockLine(m.prefix, m.sink, RStripNewlines(raw)).Close?
    ensures var closed := CloseBlock(m.(linum := m.linum + 1), Normalize(m.sink));
      Step(m, raw) == (Enter(closed.0, RStripNewlines(raw)), closed.1)
  {
  }

  lemma StepClosesCode(m: Machine, raw: string)
    requires Inv(m) && m.s == Code
    requires ReadBlockLine(m.prefix, m.sink, RStripNewlines(raw)).Close?
    ensures StepOk(m, Step(m, raw))
  {
    var line := RStripNewlines(raw);
    var block := ReadBlockLine(m.prefix, m.sink, line).block;
    var closed := CloseBlock(m.(linum := m.linum + 1), block);
    StepCloses(m, raw);
    CloseCode(m, block);
    EnterFacts(closed.0, line);
  }

  lemma StepClosesTags(m: Machine, raw: string)
    requires Inv(m) && m.s == Tags
    requires ReadBlockLine(m.prefix, m.sink, RStripNewlines(raw)).Close?
    ensures StepOk(m, Step(m, raw))
  {
    var line := RStripNewlines(raw);
    var block := ReadBlockLine(m.prefix, m.sink, line).block;
    var closed := CloseBlock(m.(linum := m.linum + 1), block);
    StepCloses(m, raw);
    CloseTags(m, block);
    EnterFacts(closed.0, line);
  }

  lemma CloseCode(m: Machine, block: string)
    requires Inv(m) && m.s == Code && Normalized(block)
    ensures var closed := CloseBlock(m.(linum := m.linum + 1), block);
      && Inv(closed.0) && Low(closed.0) == Low(m) && closed.0.nth == m.nth && closed.1.None?
      && closed.0.linum == m.linum + 1 && closed.0.s == CodeDone && closed.0.spec.code == Some(block)
  {
  }

  lemma CloseTags(m: Machine, block: string)
    requires Inv(m) && m.s == Tags && Normalized(block)
    ensures var closed := CloseBlock(m.(linum := m.linum + 1), block);
      && Inv(closed.0) && closed.0.s == Start && closed.0.nth == m.nth + 1 && closed.0.linum == m.linum + 1
      && closed.1.Some?
      && var c := closed.1.value;
      && WellFormedCase(c) && c.endLinum.value == m.linum + 1 && c.nth == Some(m.nth)
      && c.startLinum.value == Low(m)
  {
  }

  lemma StepOutsideBlock(m: Machine, raw: string)
    requires Inv(m) && m.s != Code && m.s != Tags
    ensures StepOk(m, Step(m, raw))
  {
  }

  lemma EnterFacts(m: Machine, line: string)
    requires Inv(m) && m.linum >= 1
    ensures var e := Enter(m, line);
      && Inv(e) && e.nth == m.nth && e.linum == m.linum
      && (m.s != Start ==>
            e.s != Start && e.spec.startLinum == m.spec.startLinum && e.spec.inputFileName == m.spec.inputFileName)
      && (m.s == Start && e.s != Start ==> e.spec.startLinum == Some(m.linum))
  {
  }

  /** What `Inv` gives over many steps: it is kept, `Low` never decreases,
      and one record is yielded per increment of `nth`. */
  lemma {:induction false} FoldInv(m: Machine, lines: seq<string>)
    requires Inv(m)
    decreases |lines|
    ensures Inv(Run(m, lines)) && Low(Run(m, lines)) >= Low(m)
    ensures |Fold(m, lines)| == Run(m, lines).nth - m.nth
  {
    if lines != [] {
      StepFacts(m, lines[0]);
      FoldInv(Step(m, lines[0]).0, lines[1..]);
    }
  }

  /** Record `c` is well formed, numbered `k`, starts no earlier than `lo`,
      and ends no later than `hi` and than line `last`. */
  ghost predicate Within(c: TestSpec, k: nat, lo: nat, hi: nat, last: nat)
  {
    WellFormedCase(c) && c.nth == Some(k) &&
    lo <= c.startLinum.value && c.endLinum.value <= hi && c.endLinum.value <= last
  }

  /** Records `cs` are `Within` bounds, the first one numbered `nth`. */
  ghost predicate AllWithin(cs: seq<TestSpec>, nth: nat, lo: nat, hi: nat, last: nat)
  {
    forall k :: 0 <= k < |cs| ==> Within(cs[k], nth + k, lo, hi, last)
  }

  /** The records yielded from any machine that keeps `Inv`, one at a time. */
  lemma {:induction false} FoldRecords(m: Machine, lines: seq<string>)
    requires Inv(m)
    decreases |lines|
    ensures Inv(Run(m, lines))
    ensures AllWithin(Fold(m, lines), m.nth, Low(m), Low(Run(m, lines)), m.linum + |lines|)
  {
    if lines != [] {
      var next := Step(m, lines[0]);
      var rest := lines[1..];
      StepFacts(m, lines[0]);
      FoldInv(next.0, rest);
      FoldRecords(next.0, rest);
      FoldUnfold(m, lines);
      RecordsCons(m, next, Fold(next.0, rest), Low(Run(m, lines)), |rest|);
    }
  }

  /** One unfolding of `Fold` and `Run`. */
  lemma FoldUnfold(m: Machine, lines: seq<string>)
    ensures lines != [] ==>
      var next := Step(m, lines[0]);
      Fold(m, lines) == Emitted(next.1) + Fold(next.0, lines[1..]) && Run(m, lines) == Run(next.0, lines[1..])
  {
  }

  /** One step in front of records that are `Within` bounds keeps them so. */
  lemma RecordsCons(m: Machine, next: (Machine, Option<TestSpec>), tail: seq<TestSpec>, hi: nat, n: nat)
    requires Inv(m) && StepOk(m, next) && next.0.linum == m.linum + 1 && Low(next.0) <= hi
    requires AllWithin(tail, next.0.nth, Low(next.0), hi, next.0.linum + n)
    ensures AllWithin(Emitted(next.1) + tail, m.nth, Low(m), hi, m.linum + 1 + n)
  {
  }

  /** Records yielded from any machine that keeps `Inv` are chained. */
  lemma {:induction false} FoldChained(m: Machine, lines: seq<string>)
    requires Inv(m)
    decreases |lines|
    ensures Chained(Fold(m, lines))
  {
    if lines != [] {
      var next := Step(m, lines[0]);
      var rest := lines[1..];
      var tail := Fold(next.0, rest);
      StepFacts(m, lines[0]);
      FoldChained(next.0, rest);
      FoldRecords(next.0, rest);
      ChainedCons(m, next, tail, Low(Run(next.0, rest)), |rest|);
      FoldUnfold(m, lines);
    }
  }

  /** A record yielded in front of chained records that start no earlier
      than the machine's `Low` keeps them chained. */
  lemma ChainedCons(m: Machine, next: (Machine, Option<TestSpec>), tail: seq<TestSpec>, hi: nat, n: nat)
    requires Inv(m) && StepOk(m, next) && Chained(tail)
    requires forall k :: 0 <= k < |tail| ==> Within(tail[k], next.0.nth + k, Low(next.0), hi, next.0.linum + n)
    ensures Chained(Emitted(next.1) + tail)
  {
  }

  /** The properties of `Cases`: records numbered 0, 1, 2, ... with a
      non-empty span inside the file, every key set, normalized blocks, and
      each record ending no later than the next one starts. */
  lemma CasesWellFormed(lines: seq<string>)
    ensures var cs := Cases(lines);
      && (forall k :: 0 <= k < |cs| ==>
            WellFormedCase(cs[k]) && cs[k].endLinum.value <= |lines| && cs[k].nth == Some(k))
      && Chained(cs)
  {
    var cs := Cases(lines);
    assert Inv(Init);
    FoldRecords(Init, lines);
    FoldChained(Init, lines);
    var hi := Low(Run(Init, lines));
    forall k | 0 <= k < |cs|
      ensures WellFormedCase(cs[k]) && cs[k].endLinum.value <= |lines| && cs[k].nth == Some(k)
    {
      assert Within(cs[k], Init.nth + k, Low(Init), hi, Init.linum + |lines|);
    }
  }

  /** `verify_test_case` accepts every record the extractor yields. */
  lemma CasesVerify(manFile: string, lines: seq<string>)
    ensures forall k :: 0 <= k < |Cases(lines)| ==> VerifyTestCase(manFile, Cases(lines)[k]) == Valid
  {
    CasesWellFormed(lines);
  }

  /** A case still being read at the end of the input is never yielded:
      as many records as `nth` counts came out, and every one of them ended
      no later than the open case started. */
  lemma PendingCaseDropped(lines: seq<string>)
    ensures var m := Run(Init, lines);
      && |Cases(lines)| == m.nth
      && (m.s != Start ==>
            && m.spec.startLinum.Some?
            && forall k :: 0 <= k < |Cases(lines)| ==>
                 Cases(lines)[k].endLinum.Some? && Cases(lines)[k].endLinum.value <= m.spec.startLinum.value)
  {
    assert Inv(Init);
    FoldInv(Init, lines);
    FoldRecords(Init, lines);
    var m := Run(Init, lines);
    var cs := Cases(lines);
    forall k | 0 <= k < |cs|
      ensures cs[k].endLinum.Some? && cs[k].endLinum.value <= Low(m)
    {
      assert Within(cs[k], Init.nth + k, Low(Init), Low(m), Init.linum + |lines|);
    }
  }

  /** Reading `a + b` is reading `a`, then `b`. */
  lemma FoldAppend(m: Machine, a: seq<string>, b: seq<string>)
    ensures Fold(m, a + b) == Fold(m, a) + Fold(Run(m, a), b)
    ensures Run(m, a + b) == Run(Run(m, a), b)
  {
    FoldsAppend(m, a, b);
    RunAppend(m, a, b);
  }

  lemma {:induction false} FoldsAppend(m: Machine, a: seq<string>, b: seq<string>)
    ensures Fold(m, a + b) == Fold(m, a) + Fold(Run(m, a), b)
    decreases |a|
  {
    AppendSplit(a, b);
    if a != [] {
      FoldsAppend(Step(m, a[0]).0, a[1..], b);
    }
  }

  lemma {:induction false} RunAppend(m: Machine, a: seq<string>, b: seq<string>)
    ensures Run(m, a + b) == Run(Run(m, a), b)
    decreases |a|
  {
    AppendSplit(a, b);
    if a != [] {
      RunAppend(Step(m, a[0]).0, a[1..], b);
    }
  }

  /** The first line and the rest of `a + b`. */
  lemma AppendSplit(a: seq<string>, b: seq<string>)
    ensures a == [] ==> a + b == b
    ensures a != [] ==> (a + b)[0] == a[0] && (a + b)[1..] == a[1..] + b
  {
  }

  /** Reading one more line is one more step. */
  lemma AppendLine(lines: seq<string>, raw: string)
    ensures var m := Run(Init, lines);
      && Run(Init, lines + [raw]) == Step(m, raw).0
      && Cases(lines + [raw]) == Cases(lines) + Emitted(Step(m, raw).1)
  {
    FoldAppend(Init, lines, [raw]);
    var m := Run(Init, lines);
    assert Fold(m, [raw]) == Emitted(Step(m, raw).1) + Fold(Step(m, raw).0, []);
    assert Run(m, [raw]) == Run(Step(m, raw).0, []);
  }

  /** Reading one more line keeps every record already yielded and adds
      one exactly when a tags block was being read and the line closes it. */
  lemma YieldOnlyOnTagsClose(lines: seq<string>, raw: string)
    ensures var m := Run(Init, lines);
      var closes := m.s == Tags && ReadBlockLine(m.prefix, m.sink, RStripNewlines(raw)).Close?;
      && Cases(lines) <= Cases(lines + [raw])
      && |Cases(lines + [raw])| == |Cases(lines)| + (if closes then 1 else 0)
  {
    AppendLine(lines, raw);
  }

  // ---------------------------------------------------------------------
  // Complete examples are yielded

  /** The lines as `readlines` returns them, each with its line feed. */
  function Lined(ls: seq<string>): (r: seq<string>)
    ensures |r| == |ls|
  {
    if ls == [] then [] else [ls[0] + "\n"] + Lined(ls[1..])
  }

  /** `n` empty lines as `readlines` returns them. */
  function EmptyLines(n: nat): (r: seq<string>)
    ensures |r| == n
  {
    if n == 0 then [] else ["\n"] + EmptyLines(n - 1)
  }


  /** One documented example, laid out as the extractor expects it: the
      text before it, the lines its state tests look for, the two indented
      blocks, and the number of empty lines after the input line, after
      each directive, after the `"output.tags"` and command lines, and at
      the end of each block. */
  datatype Example = Example(
    lead: seq<string>,   // title and prose before the input line
    inputLine: string,   // "input.<ext>"
    inputGap: nat,
    codeIntro: string,   // .. code-block:: <language>
    codeGap: nat,
    codeIndent: string,
    code: seq<string>,
    codeTrail: nat,
    outputLine: string,  // "output.tags"
    outputGap: nat,
    withLine: string,    // ... with "<command line>" ...
    withGap: nat,
    tagsIntro: string,   // :: or .. code-block:: tags
    tagsGap: nat,
    tagsIndent: string,
    tags: seq<string>,
    tagsTrail: nat,
    closer: string)      // the first line after the tags block

  /** A block indented by a run of blanks, its first line starting with text. */
  predicate GoodBlock(p: string, xs: seq<string>)
  {
    p != [] && AllBlank(p) && xs != [] && xs[0] != [] && !IsBlank(xs[0][0]) &&
    forall i :: 0 <= i < |xs| ==> '\n' !in xs[i] && Stripped(xs[i])
  }

  /** An example the extractor reads whole: no line of the text before it
      is an `"input.<ext>"` line, every line of the example itself is one
      its state tests accept, and both blocks are indented. */
  predicate WellFormedExample(e: Example)
  {
    GoodLead(e.lead) && WellFormedCodePart(e) && WellFormedTagsPart(e)
  }

  /** Stripped lines none of which names an input file. */
  predicate GoodLead(ls: seq<string>)
  {
    forall i :: 0 <= i < |ls| ==> Stripped(ls[i]) && MatchInputName(ls[i]).None?
  }

  /** The lines of `CodePart(e)`: an `"input.<ext>"` line, a code-block
      directive and an indented code block. */
  predicate WellFormedCodePart(e: Example)
  {
    GoodHead(e.inputLine, e.codeIntro) && GoodBlock(e.codeIndent, e.code)
  }

  /** An `"input.<ext>"` line and a code-block directive, both stripped. */
  predicate GoodHead(inputLine: string, codeIntro: string)
  {
    MatchInputName(inputLine).Some? && MatchCodeBlock(codeIntro) && Stripped(inputLine) && Stripped(codeIntro)
  }

  /** The lines of `TagsPart(e)`: an `"output.tags"` line, a command line,
      a tags-block introducer, an indented tags block and a closing line. */
  predicate WellFormedTagsPart(e: Example)
  {
    MatchOutputTags(e.outputLine) && SearchWith(e.withLine).Some? && MatchTagsIntroducer(e.tagsIntro) &&
    GoodBlock(e.tagsIndent, e.tags) && e.closer != [] && !IsBlank(e.closer[0]) &&
    Stripped(e.outputLine) && Stripped(e.withLine) && Stripped(e.tagsIntro) && Stripped(e.closer)
  }

  /** A line followed by `n` empty lines. */
  function LineThen(raw: string, n: nat): (r: seq<string>)
    ensures |r| == 1 + n
  {
    [raw] + EmptyLines(n)
  }

  /** An indented block, its empty lines left empty, followed by `n`
      empty lines. */
  function Block(p: string, xs: seq<string>, n: nat): (r: seq<string>)
    ensures |r| == |xs| + n
  {
    Lined(Layout(p, xs)) + EmptyLines(n)
  }

  /** The lines of example `e` as `readlines` returns them: the text
      before it, then the example itself. */
  function Page(e: Example): seq<string>
  {
    Lined(e.lead) + Body(e)
  }

  /** The example itself: the part up to the code block and the part from
      the `"output.tags"` line on. */
  function Body(e: Example): seq<string>
  {
    CodePart(e) + TagsPart(e)
  }

  /** From the `"input.<ext>"` line to the end of the code block. */
  function CodePart(e: Example): seq<string>
  {
    HeadLines(e) + Block(e.codeIndent, e.code, e.codeTrail)
  }

  /** The `"output.tags"` line, the command line and the tags-block
      introducer, each with the empty lines after it. */
  function Middle(e: Example): seq<string>
  {
    LineThen(e.outputLine + "\n", e.outputGap) + LineThen(e.withLine + "\n", e.withGap) +
    LineThen(e.tagsIntro + "\n", e.tagsGap)
  }

  /** From the `"output.tags"` line to the line closing the tags block. */
  function TagsPart(e: Example): seq<string>
  {
    Middle(e) + Block(e.tagsIndent, e.tags, e.tagsTrail) + [e.closer + "\n"]
  }

  /** The record of the page of example `e` read after line `linum`,
      numbered `nth`: it starts on the input line, the line after the text
      before the example, and ends on the line closing the tags block, the
      last line of the page. */
  function Expected(e: Example, linum: nat, nth: nat): TestSpec
  {
    TestSpec(Some(linum + |e.lead| + 1), MatchInputName(e.inputLine), Some(Normalize(JoinSegments(e.code))),
             SearchWith(e.withLine), Some(Normalize(JoinSegments(e.tags))), Some(nth),
             Some(linum + PageLength(e)))
  }

  /** The record of the example itself read after line `linum`. */
  function BodyRecord(e: Example, linum: nat, nth: nat): TestSpec
  {
    TestSpec(Some(linum + 1), MatchInputName(e.inputLine), Some(Normalize(JoinSegments(e.code))),
             SearchWith(e.withLine), Some(Normalize(JoinSegments(e.tags))), Some(nth),
             Some(linum + BodyLength(e)))
  }

  /** The number of lines of the code part of `e`. */
  function CodeLength(e: Example): nat
  {
    2 + e.inputGap + e.codeGap + |e.code| + e.codeTrail
  }

  /** The number of lines of the tags part of `e`. */
  function TagsLength(e: Example): nat
  {
    4 + e.outputGap + e.withGap + e.tagsGap + |e.tags| + e.tagsTrail
  }

  /** The number of lines of the example itself. */
  function BodyLength(e: Example): nat
  {
    CodeLength(e) + TagsLength(e)
  }

  /** The number of lines of the page of `e`. */
  function PageLength(e: Example): nat
  {
    |e.lead| + BodyLength(e)
  }

  /** The line count of the page. */
  lemma PageLengths(e: Example)
    ensures |Page(e)| == PageLength(e)
  {
    PartLengths(e);
  }

  /** The line counts are those of the example and its parts. */
  lemma PartLengths(e: Example)
    ensures |CodePart(e)| == CodeLength(e) && |TagsPart(e)| == TagsLength(e) && |Body(e)| == BodyLength(e)
  {
  }

  /** Reading a first line, then the rest. */
  lemma FoldCons(m: Machine, raw: string, rest: seq<string>)
    ensures Fold(m, [raw] + rest) == Emitted(Step(m, raw).1) + Fold(Step(m, raw).0, rest)
    ensures Run(m, [raw] + rest) == Run(Step(m, raw).0, rest)
  {
    assert ([raw] + rest)[0] == raw && ([raw] + rest)[1..] == rest;
  }

  /** Reading `a` then `b` from `m`, given what each yields and leaves. */
  lemma Chain(m: Machine, a: seq<string>, b: seq<string>, ma: Machine, mb: Machine,
              ya: seq<TestSpec>, yb: seq<TestSpec>)
    requires Fold(m, a) == ya && Run(m, a) == ma
    requires Fold(ma, b) == yb && Run(ma, b) == mb
    ensures Fold(m, a + b) == ya + yb && Run(m, a + b) == mb
  {
    FoldAppend(m, a, b);
  }

  /** Reading `a` then `b`, neither of which yields anything. */
  lemma Quiet(m: Machine, a: seq<string>, b: seq<string>, ma: Machine, mb: Machine)
    requires Fold(m, a) == [] && Run(m, a) == ma
    requires Fold(ma, b) == [] && Run(ma, b) == mb
    ensures Fold(m, a + b) == [] && Run(m, a + b) == mb
  {
    Chain(m, a, b, ma, mb, [], []);
  }

  /** A line outside the blocks goes straight to the state-entry tests. */
  lemma StepOutside(m: Machine, line: string)
    requires m.s != Code && m.s != Tags && Stripped(line)
    ensures Step(m, line + "\n") == (Enter(m.(linum := m.linum + 1), line), None)
  {
    StripLined(line);
  }

  /** Outside the blocks an empty line changes nothing but the line number. */
  lemma StepEmptyOutside(m: Machine)
    requires m.s != Code && m.s != Tags
    ensures Step(m, "\n") == (m.(linum := m.linum + 1), None)
  {
    assert "\n"[..0] == [];
  }

  /** Before a block's first indented line an empty line is skipped. */
  lemma StepEmptyBefore(m: Machine)
    requires (m.s == Code || m.s == Tags) && m.prefix.None?
    ensures Step(m, "\n") == (m.(linum := m.linum + 1), None)
  {
    assert "\n"[..0] == [];
    BlockLineRules(m.prefix, m.sink, "");
  }

  /** Inside a block an empty line adds a line feed to the buffer. */
  lemma StepEmptyInside(m: Machine)
    requires (m.s == Code || m.s == Tags) && m.prefix.Some? && m.prefix.value != []
    ensures Step(m, "\n") == (m.(linum := m.linum + 1, sink := m.sink + "\n"), None)
  {
    assert "\n"[..0] == [];
    BlockLineRules(m.prefix, m.sink, "");
  }

  /** An empty line skipped before a block's first indented line, then the rest. */
  lemma EmptyLineBefore(m: Machine, rest: seq<string>)
    requires (m.s == Code || m.s == Tags) && m.prefix.None?
    ensures Fold(m, ["\n"] + rest) == Fold(m.(linum := m.linum + 1), rest)
    ensures Run(m, ["\n"] + rest) == Run(m.(linum := m.linum + 1), rest)
  {
    StepEmptyBefore(m);
    FoldCons(m, "\n", rest);
  }

  /** An empty line inside a block, then the rest. */
  lemma EmptyLineInside(m: Machine, rest: seq<string>)
    requires (m.s == Code || m.s == Tags) && m.prefix.Some? && m.prefix.value != []
    ensures Fold(m, ["\n"] + rest) == Fold(m.(linum := m.linum + 1, sink := m.sink + "\n"), rest)
    ensures Run(m, ["\n"] + rest) == Run(m.(linum := m.linum + 1, sink := m.sink + "\n"), rest)
  {
    StepEmptyInside(m);
    FoldCons(m, "\n", rest);
  }

  /** Outside the blocks empty lines change nothing but the line number. */
  lemma {:induction false} GapOutside(m: Machine, n: nat)
    requires m.s != Code && m.s != Tags
    ensures Fold(m, EmptyLines(n)) == [] && Run(m, EmptyLines(n)) == m.(linum := m.linum + n)
    decreases n
  {
    if n > 0 {
      StepEmptyOutside(m);
      FoldCons(m, "\n", EmptyLines(n - 1));
      GapOutside(m.(linum := m.linum + 1), n - 1);
    }
  }

  /** Before a block's first indented line, empty lines change nothing but
      the line number. */
  lemma {:induction false} GapBeforeBlock(m: Machine, n: nat)
    requires (m.s == Code || m.s == Tags) && m.prefix.None?
    ensures Fold(m, EmptyLines(n)) == [] && Run(m, EmptyLines(n)) == m.(linum := m.linum + n)
    decreases n
  {
    if n > 0 {
      EmptyLineBefore(m, EmptyLines(n - 1));
      GapBeforeBlock(m.(linum := m.linum + 1), n - 1);
    }
  }

  /** Inside a block each empty line adds a line feed to the buffer. */
  lemma GapInBlock(m: Machine, n: nat)
    requires (m.s == Code || m.s == Tags) && m.prefix.Some? && m.prefix.value != []
    ensures Fold(m, EmptyLines(n)) == []
    ensures Run(m, EmptyLines(n)) == m.(linum := m.linum + n, sink := m.sink + LineFeeds(n))
  {
    EmptiesRead(m.prefix.value, m.sink, n);
    LinedEmpties(n);
    BlockRun(m, Empties(n));
  }

  /** Empty lines as `readlines` returns them. */
  lemma {:induction false} LinedEmpties(n: nat)
    ensures Lined(Empties(n)) == EmptyLines(n)
    decreases n
  {
    if n != 0 {
      LinedEmpties(n - 1);
      assert Empties(n)[0] == "" && Empties(n)[1..] == Empties(n - 1);
      assert "" + "\n" == "\n";
      assert Lined(Empties(n)) == ["\n"] + Lined(Empties(n - 1));
    }
  }

  /** The empty lines that end a block are dropped again when it is stored. */
  lemma NormalizeLineFeeds(s: string, n: nat)
    ensures Normalize(s + LineFeeds(n)) == Normalize(s)
  {
    StripFeeds(s, n);
  }

  /** A line that moves the machine on, then empty lines. */
  lemma ReadLineThen(m: Machine, raw: string, n: nat, m1: Machine, m2: Machine)
    requires Step(m, raw) == (m1, None) && Fold(m1, EmptyLines(n)) == [] && Run(m1, EmptyLines(n)) == m2
    ensures Fold(m, LineThen(raw, n)) == [] && Run(m, LineThen(raw, n)) == m2
  {
    FoldCons(m, raw, EmptyLines(n));
  }

  /** Lines the block absorbs change only the line number, the prefix and
      the buffer. */
  lemma {:induction false} BlockRun(m: Machine, ls: seq<string>)
    requires m.s == Code || m.s == Tags
    requires forall i :: 0 <= i < |ls| ==> Stripped(ls[i])
    requires ReadLines(m.prefix, m.sink, ls).Absorb?
    ensures var a := ReadLines(m.prefix, m.sink, ls);
      && Fold(m, Lined(ls)) == []
      && Run(m, Lined(ls)) == m.(linum := m.linum + |ls|, prefix := a.prefix, sink := a.sink)
    decreases |ls|
  {
    if ls != [] {
      var raw := ls[0] + "\n";
      StripLined(ls[0]);
      assert Lined(ls) == [raw] + Lined(ls[1..]);
      var a := ReadBlockLine(m.prefix, m.sink, ls[0]);
      StepShape(m, raw);
      var m' := m.(linum := m.linum + 1, prefix := a.prefix, sink := a.sink);
      assert Step(m, raw) == (m', None);
      FoldCons(m, raw, Lined(ls[1..]));
      BlockRun(m', ls[1..]);
    }
  }

  lemma LayoutStripped(p: string, xs: seq<string>)
    requires p != [] && AllBlank(p)
    requires forall i :: 0 <= i < |xs| ==> Stripped(xs[i])
    ensures forall i :: 0 <= i < |xs| ==> Stripped(Layout(p, xs)[i])
  {
    LayoutAt(p, xs);
    forall i | 0 <= i < |xs|
      ensures Stripped(Layout(p, xs)[i])
    {
      var l := p + xs[i];
      if xs[i] == [] {
      } else {
        assert l[|l| - 1] == xs[i][|xs[i]| - 1];
      }
    }
  }

  /** A block indented by a run of blanks, its empty lines left empty, is
      read whole, without its indentation, and nothing is yielded. */
  lemma ReadIndented(m: Machine, p: string, xs: seq<string>)
    requires (m.s == Code || m.s == Tags) && m.prefix.None? && m.sink == ""
    requires GoodBlock(p, xs)
    ensures Fold(m, Lined(Layout(p, xs))) == []
    ensures Run(m, Lined(Layout(p, xs))) == m.(linum := m.linum + |xs|, prefix := Some(p), sink := JoinSegments(xs))
  {
    LayoutIrrelevant(p, xs);
    LayoutStripped(p, xs);
    BlockRun(m, Layout(p, xs));
  }

  /** An indented block and the empty lines after it: the buffer holds the
      block without its indentation and a line feed per empty line. */
  lemma ReadIndentedBlock(m: Machine, p: string, xs: seq<string>, n: nat)
    requires (m.s == Code || m.s == Tags) && m.prefix.None? && m.sink == ""
    requires GoodBlock(p, xs)
    ensures Fold(m, Block(p, xs, n)) == []
    ensures Run(m, Block(p, xs, n)) ==
      m.(linum := m.linum + |xs| + n, prefix := Some(p), sink := JoinSegments(xs) + LineFeeds(n))
  {
    var mb := m.(linum := m.linum + |xs|, prefix := Some(p), sink := JoinSegments(xs));
    ReadIndented(m, p, xs);
    GapInBlock(mb, n);
    Quiet(m, Lined(Layout(p, xs)), EmptyLines(n), mb, mb.(linum := mb.linum + n, sink := mb.sink + LineFeeds(n)));
  }

  /** A line outside the blocks that leaves the machine outside them, then
      empty lines. */
  lemma ReadLineOutside(m: Machine, line: string, n: nat, m1: Machine)
    requires m.s != Code && m.s != Tags && Stripped(line)
    requires Enter(m.(linum := m.linum + 1), line) == m1 && m1.s != Code && m1.s != Tags
    ensures Fold(m, LineThen(line + "\n", n)) == [] && Run(m, LineThen(line + "\n", n)) == m1.(linum := m1.linum + n)
  {
    StepOutside(m, line);
    GapOutside(m1, n);
    ReadLineThen(m, line + "\n", n, m1, m1.(linum := m1.linum + n));
  }

  /** A line outside the blocks that starts one, then empty lines. */
  lemma ReadLineIntoBlock(m: Machine, line: string, n: nat, m1: Machine)
    requires m.s != Code && m.s != Tags && Stripped(line)
    requires Enter(m.(linum := m.linum + 1), line) == m1 && (m1.s == Code || m1.s == Tags) && m1.prefix.None?
    ensures Fold(m, LineThen(line + "\n", n)) == [] && Run(m, LineThen(line + "\n", n)) == m1.(linum := m1.linum + n)
  {
    StepOutside(m, line);
    GapBeforeBlock(m1, n);
    ReadLineThen(m, line + "\n", n, m1, m1.(linum := m1.linum + n));
  }

  /** The `"input.<ext>"` line and the empty lines after it. */
  lemma ReadInputLine(m: Machine, l0: string, g0: nat)
    requires m.s == Start && MatchInputName(l0).Some? && Stripped(l0)
    ensures Fold(m, LineThen(l0 + "\n", g0)) == []
    ensures Run(m, LineThen(l0 + "\n", g0)) == AfterInputLine(m, l0, g0)
  {
    var m1 := m.(linum := m.linum + 1, s := Input,
                 spec := m.spec.(startLinum := Some(m.linum + 1), inputFileName := MatchInputName(l0)));
    EnterInput(m.(linum := m.linum + 1), l0);
    ReadLineOutside(m, l0, g0, m1);
    AfterInputLineOf(m, l0, g0, m1);
  }

  /** The machine after the input line, then `g0` empty lines. */
  lemma AfterInputLineOf(m: Machine, l0: string, g0: nat, m1: Machine)
    ensures m1 == m.(linum := m.linum + 1, s := Input,
                     spec := m.spec.(startLinum := Some(m.linum + 1), inputFileName := MatchInputName(l0))) ==>
      m1.(linum := m1.linum + g0) == AfterInputLine(m, l0, g0)
  {
  }

  /** In `start`, an `"input.<ext>"` line stores its line number and the
      input name and moves to `input`. */
  lemma EnterInput(m: Machine, l0: string)
    ensures m.s == Start && MatchInputName(l0).Some? ==>
      Enter(m, l0) == m.(s := Input, spec := m.spec.(startLinum := Some(m.linum), inputFileName := MatchInputName(l0)))
  {
  }

  /** The code-block directive and the empty lines after it. */
  lemma ReadCodeIntro(m: Machine, l1: string, g1: nat)
    requires m.s == Input && MatchCodeBlock(l1) && Stripped(l1)
    ensures Fold(m, LineThen(l1 + "\n", g1)) == []
    ensures Run(m, LineThen(l1 + "\n", g1)) == AfterCodeIntro(m, g1)
  {
    ReadLineIntoBlock(m, l1, g1, m.(linum := m.linum + 1, s := Code, sink := "", prefix := None));
  }

  /** The input-name line and the code-block directive, with the empty
      lines after each. */
  lemma ReadHead(m: Machine, l0: string, g0: nat, l1: string, g1: nat)
    requires m.s == Start && GoodHead(l0, l1)
    ensures Fold(m, LineThen(l0 + "\n", g0) + LineThen(l1 + "\n", g1)) == []
    ensures Run(m, LineThen(l0 + "\n", g0) + LineThen(l1 + "\n", g1)) == HeadMachine(m, l0, g0, g1)
  {
    var m2 := AfterInputLine(m, l0, g0);
    ReadInputLine(m, l0, g0);
    ReadCodeIntro(m2, l1, g1);
    Quiet(m, LineThen(l0 + "\n", g0), LineThen(l1 + "\n", g1), m2, AfterCodeIntro(m2, g1));
  }

  /** The machine after input-name line `l0` and `g0` empty lines are read
      from `m`: the start line and the input file name are stored. */
  function AfterInputLine(m: Machine, l0: string, g0: nat): Machine
  {
    m.(linum := m.linum + 1 + g0, s := Input,
       spec := m.spec.(startLinum := Some(m.linum + 1), inputFileName := MatchInputName(l0)))
  }

  /** The machine after a code-block directive and `g1` empty lines are
      read from `m`: in the code block, with no prefix yet. */
  function AfterCodeIntro(m: Machine, g1: nat): Machine
  {
    m.(linum := m.linum + 1 + g1, s := Code, sink := "", prefix := None)
  }

  /** The machine after input-name line `l0`, a code-block directive and
      `g0` and `g1` empty lines after them are read from `m`: in the code
      block, with the start line and the input file name stored. */
  function HeadMachine(m: Machine, l0: string, g0: nat, g1: nat): Machine
  {
    AfterCodeIntro(AfterInputLine(m, l0, g0), g1)
  }

  /** Up to the end of the code block nothing is yielded. */
  lemma ReadCodePart(m: Machine, e: Example)
    requires m.s == Start && WellFormedCodePart(e)
    ensures Fold(m, CodePart(e)) == []
    ensures Run(m, CodePart(e)) == AfterCode(m, e)
  {
    ReadHeadOf(m, e);
    ReadCodeBlockOf(m, e);
    Quiet(m, HeadLines(e), Block(e.codeIndent, e.code, e.codeTrail), AfterHead(m, e), AfterCode(m, e));
  }

  /** The input-name line and the code-block directive of `e`, with the
      empty lines after each. */
  function HeadLines(e: Example): seq<string>
  {
    LineThen(e.inputLine + "\n", e.inputGap) + LineThen(e.codeIntro + "\n", e.codeGap)
  }

  lemma ReadHeadOf(m: Machine, e: Example)
    requires m.s == Start && GoodHead(e.inputLine, e.codeIntro)
    ensures Fold(m, HeadLines(e)) == [] && Run(m, HeadLines(e)) == AfterHead(m, e)
  {
    ReadHead(m, e.inputLine, e.inputGap, e.codeIntro, e.codeGap);
  }

  lemma ReadCodeBlockOf(m: Machine, e: Example)
    requires GoodBlock(e.codeIndent, e.code)
    ensures var b := Block(e.codeIndent, e.code, e.codeTrail);
      Fold(AfterHead(m, e), b) == [] && Run(AfterHead(m, e), b) == AfterCode(m, e)
  {
    ReadIndentedBlock(AfterHead(m, e), e.codeIndent, e.code, e.codeTrail);
  }

  /** The machine after the head lines of `e` are read from `m`. */
  function AfterHead(m: Machine, e: Example): Machine
  {
    HeadMachine(m, e.inputLine, e.inputGap, e.codeGap)
  }

  /** The machine after the code part of `e` is read from `m`: still in the
      code block, holding its prefix and the block in the buffer. */
  function AfterCode(m: Machine, e: Example): Machine
  {
    var h := AfterHead(m, e);
    h.(linum := h.linum + |e.code| + e.codeTrail, prefix := Some(e.codeIndent),
       sink := JoinSegments(e.code) + LineFeeds(e.codeTrail))
  }

  /** Inside block `s`, whose prefix is a run of blanks. */
  predicate InBlock(m: Machine, s: State)
  {
    m.s == s && m.prefix.Some? && m.prefix.value != [] && IsBlank(m.prefix.value[0])
  }

  /** The `"output.tags"` line closes the code block. */
  lemma StepOutputLine(m: Machine, o: string)
    requires InBlock(m, Code)
    requires MatchOutputTags(o) && Stripped(o)
    ensures Step(m, o + "\n") ==
      (m.(linum := m.linum + 1, s := Output, sink := Normalize(m.sink),
          spec := m.spec.(code := Some(Normalize(m.sink)))), None)
  {
    StripLined(o);
    assert o[0] == '"';
    assert !StartsWith(o, m.prefix.value);
    BlockLineRules(m.prefix, m.sink, o);
    StepCloses(m, o + "\n");
  }

  /** The `"output.tags"` line and the empty lines after it: the code
      block is closed and stored. */
  lemma ReadOutputLine(m: Machine, e: Example)
    requires InBlock(m, Code)
    requires MatchOutputTags(e.outputLine) && Stripped(e.outputLine)
    ensures Fold(m, LineThen(e.outputLine + "\n", e.outputGap)) == []
    ensures Run(m, LineThen(e.outputLine + "\n", e.outputGap)) == AfterOutput(m, e)
  {
    var m1 := m.(linum := m.linum + 1, s := Output, sink := Normalize(m.sink),
                 spec := m.spec.(code := Some(Normalize(m.sink))));
    StepOutputLine(m, e.outputLine);
    GapOutside(m1, e.outputGap);
    ReadLineThen(m, e.outputLine + "\n", e.outputGap, m1, m1.(linum := m1.linum + e.outputGap));
  }

  /** The command line and the empty lines after it. */
  lemma ReadWithLine(m: Machine, w: string, g: nat)
    requires m.s == Output && SearchWith(w).Some? && Stripped(w)
    ensures Fold(m, LineThen(w + "\n", g)) == []
    ensures Run(m, LineThen(w + "\n", g)) ==
      m.(linum := m.linum + 1 + g, s := OutputAfterOptions, spec := m.spec.(cmdline := SearchWith(w)))
  {
    ReadLineOutside(m, w, g, m.(linum := m.linum + 1, s := OutputAfterOptions, spec := m.spec.(cmdline := SearchWith(w))));
  }

  /** The tags-block introducer and the empty lines after it. */
  lemma ReadTagsIntro(m: Machine, t: string, g: nat)
    requires m.s == OutputAfterOptions && MatchTagsIntroducer(t) && Stripped(t)
    ensures Fold(m, LineThen(t + "\n", g)) == []
    ensures Run(m, LineThen(t + "\n", g)) == m.(linum := m.linum + 1 + g, s := Tags, sink := "", prefix := None)
  {
    ReadLineIntoBlock(m, t, g, m.(linum := m.linum + 1, s := Tags, sink := "", prefix := None));
  }

  /** The `"output.tags"` line closes the code block; the command line and
      the tags-block directive follow, each with the empty lines after it. */
  lemma ReadMiddle(m: Machine, e: Example)
    requires InBlock(m, Code) && WellFormedTagsPart(e)
    ensures Fold(m, Middle(e)) == [] && Run(m, Middle(e)) == AfterMiddle(m, e)
  {
    var a, b, c := LineThen(e.outputLine + "\n", e.outputGap), LineThen(e.withLine + "\n", e.withGap),
                   LineThen(e.tagsIntro + "\n", e.tagsGap);
    ReadOutputLine(m, e);
    ReadWithLine(AfterOutput(m, e), e.withLine, e.withGap);
    ReadTagsIntro(AfterWith(m, e), e.tagsIntro, e.tagsGap);
    Quiet(m, a, b, AfterOutput(m, e), AfterWith(m, e));
    Quiet(m, a + b, c, AfterWith(m, e), AfterMiddle(m, e));
  }

  /** The machine after the `"output.tags"` line and the empty lines after
      it: the code block is stored. */
  function AfterOutput(m: Machine, e: Example): Machine
  {
    m.(linum := m.linum + 1 + e.outputGap, s := Output, sink := Normalize(m.sink),
       spec := m.spec.(code := Some(Normalize(m.sink))))
  }

  /** The machine after the command line too: the command line is stored. */
  function AfterWith(m: Machine, e: Example): Machine
  {
    var o := AfterOutput(m, e);
    o.(linum := o.linum + 1 + e.withGap, s := OutputAfterOptions, spec := o.spec.(cmdline := SearchWith(e.withLine)))
  }

  /** The machine after the tags-block introducer too: in the tags block,
      with no prefix and an empty buffer. */
  function AfterMiddle(m: Machine, e: Example): Machine
  {
    var w := AfterWith(m, e);
    w.(linum := w.linum + 1 + e.tagsGap, s := Tags, sink := "", prefix := None)
  }

  /** The machine after the tags block too, holding its prefix and the block
      in the buffer. */
  function AfterTags(m: Machine, e: Example): Machine
  {
    var h := AfterMiddle(m, e);
    h.(linum := h.linum + |e.tags| + e.tagsTrail, prefix := Some(e.tagsIndent),
       sink := JoinSegments(e.tags) + LineFeeds(e.tagsTrail))
  }

  lemma ReadTagsBlockOf(m: Machine, e: Example)
    requires GoodBlock(e.tagsIndent, e.tags)
    ensures var b := Block(e.tagsIndent, e.tags, e.tagsTrail);
      Fold(AfterMiddle(m, e), b) == [] && Run(AfterMiddle(m, e), b) == AfterTags(m, e)
  {
    ReadIndentedBlock(AfterMiddle(m, e), e.tagsIndent, e.tags, e.tagsTrail);
  }

  /** The line after the tags block closes it and the record is yielded. */
  lemma ReadCloser(m: Machine, c: string)
    requires InBlock(m, Tags)
    requires c != [] && !IsBlank(c[0]) && Stripped(c)
    ensures Fold(m, [c + "\n"]) ==
      [m.spec.(tags := Some(Normalize(m.sink)), nth := Some(m.nth), endLinum := Some(m.linum + 1))]
    ensures var r := Run(m, [c + "\n"]);
      r.linum == m.linum + 1 && r.nth == m.nth + 1 && (MatchInputName(c).None? ==> r.s == Start)
  {
    StripLined(c);
    assert !StartsWith(c, m.prefix.value);
    BlockLineRules(m.prefix, m.sink, c);
    StepCloses(m, c + "\n");
    FoldCons(m, c + "\n", []);
  }

  /** From the `"output.tags"` line to the end of the tags block the code
      block and the command line are stored and the tags block is read. */
  lemma ReadOutputToTags(m: Machine, e: Example)
    requires InBlock(m, Code) && WellFormedTagsPart(e)
    ensures var d := Middle(e) + Block(e.tagsIndent, e.tags, e.tagsTrail);
      Fold(m, d) == [] && Run(m, d) == AfterTags(m, e)
  {
    ReadMiddle(m, e);
    ReadTagsBlockOf(m, e);
    Quiet(m, Middle(e), Block(e.tagsIndent, e.tags, e.tagsTrail), AfterMiddle(m, e), AfterTags(m, e));
  }

  /** The record yielded when the tags part of `e` is read from `m`: what
      `m` holds, with the code block, the command line, the tags block, the
      case number and the line closing the tags block added. */
  function TagsRecord(m: Machine, e: Example): TestSpec
  {
    m.spec.(code := Some(Normalize(m.sink)), cmdline := SearchWith(e.withLine),
            tags := Some(Normalize(JoinSegments(e.tags))), nth := Some(m.nth), endLinum := Some(m.linum + TagsLength(e)))
  }

  /** What the tags part leaves in the machine: the dictionary with the code
      block and the command line, the tags block in the buffer, and the
      numbers. */
  lemma AfterTagsFacts(m: Machine, e: Example)
    ensures var t := AfterTags(m, e);
      && t.spec == m.spec.(code := Some(Normalize(m.sink)), cmdline := SearchWith(e.withLine))
      && t.nth == m.nth && t.linum + 1 == m.linum + TagsLength(e)
      && t.sink == JoinSegments(e.tags) + LineFeeds(e.tagsTrail)
  {
  }

  /** The record a machine with those contents yields is `TagsRecord`. */
  lemma ClosedRecordOf(t: Machine, m: Machine, e: Example)
    ensures t.spec == m.spec.(code := Some(Normalize(m.sink)), cmdline := SearchWith(e.withLine)) &&
            t.nth == m.nth && t.linum + 1 == m.linum + TagsLength(e) &&
            Normalize(t.sink) == Normalize(JoinSegments(e.tags)) ==>
      t.spec.(tags := Some(Normalize(t.sink)), nth := Some(t.nth), endLinum := Some(t.linum + 1)) == TagsRecord(m, e)
  {
  }

  /** The line after the tags block yields `TagsRecord`. */
  lemma ReadClosingLine(m: Machine, e: Example)
    requires WellFormedTagsPart(e)
    ensures Fold(AfterTags(m, e), [e.closer + "\n"]) == [TagsRecord(m, e)]
    ensures var r := Run(AfterTags(m, e), [e.closer + "\n"]);
      r.linum == m.linum + TagsLength(e) && r.nth == m.nth + 1 && (MatchInputName(e.closer).None? ==> r.s == Start)
  {
    var t := AfterTags(m, e);
    ReadCloser(t, e.closer);
    AfterTagsFacts(m, e);
    NormalizeLineFeeds(JoinSegments(e.tags), e.tagsTrail);
    ClosedRecordOf(t, m, e);
  }

  /** From the `"output.tags"` line to the line after the tags block, the
      code block is stored, then the command line, and the record is
      yielded. */
  lemma ReadTagsPart(m: Machine, e: Example)
    requires InBlock(m, Code) && WellFormedTagsPart(e)
    ensures Fold(m, TagsPart(e)) == [TagsRecord(m, e)]
    ensures var r := Run(m, TagsPart(e));
      r.linum == m.linum + TagsLength(e) && r.nth == m.nth + 1 && (MatchInputName(e.closer).None? ==> r.s == Start)
  {
    var t := AfterTags(m, e);
    ReadOutputToTags(m, e);
    ReadClosingLine(m, e);
    Chain(m, Middle(e) + Block(e.tagsIndent, e.tags, e.tagsTrail), [e.closer + "\n"], t, Run(t, [e.closer + "\n"]),
          [], [TagsRecord(m, e)]);
  }

  /** A complete example, read from the `start` state, is yielded as one
      record carrying its input file name, its code block, its command line
      and its tags block, both blocks read without their indentation and
      without the empty lines ending them; it starts on the input line and
      ends on the line after the tags block. */
  lemma BodyYields(m: Machine, e: Example)
    requires m.s == Start && WellFormedExample(e)
    ensures Fold(m, Body(e)) == [BodyRecord(e, m.linum, m.nth)]
    ensures var r := Run(m, Body(e));
      r.linum == m.linum + |Body(e)| && r.nth == m.nth + 1 && (MatchInputName(e.closer).None? ==> r.s == Start)
  {
    ReadCodePart(m, e);
    TagsAfterCode(m, e);
    PartLengths(e);
    BodyChain(m, e, AfterCode(m, e), BodyRecord(e, m.linum, m.nth));
  }

  /** The tags part read after the code part yields the expected record. */
  lemma TagsAfterCode(m: Machine, e: Example)
    requires WellFormedExample(e)
    ensures Fold(AfterCode(m, e), TagsPart(e)) == [BodyRecord(e, m.linum, m.nth)]
    ensures var r := Run(AfterCode(m, e), TagsPart(e));
      r.linum == m.linum + BodyLength(e) && r.nth == m.nth + 1 && (MatchInputName(e.closer).None? ==> r.s == Start)
  {
    ReadTagsPart(AfterCode(m, e), e);
    TagsRecordExpected(m, e);
  }

  /** Reading the example is reading its code part, then its tags part. */
  lemma BodyChain(m: Machine, e: Example, mb: Machine, rec: TestSpec)
    requires Fold(m, CodePart(e)) == [] && Run(m, CodePart(e)) == mb && Fold(mb, TagsPart(e)) == [rec]
    ensures Fold(m, Body(e)) == [rec] && Run(m, Body(e)) == Run(mb, TagsPart(e))
  {
    Chain(m, CodePart(e), TagsPart(e), mb, Run(mb, TagsPart(e)), [], [rec]);
  }

  /** The record of the tags part read after the code part is `BodyRecord`.
      Its fields are compared in two lemmas of their own: compared all at
      once, in one proof, the records cost the solver many times as much. */
  lemma TagsRecordExpected(m: Machine, e: Example)
    ensures TagsRecord(AfterCode(m, e), e) == BodyRecord(e, m.linum, m.nth)
  {
    RecordNumbers(m, e);
    RecordTexts(m, e);
  }

  lemma RecordNumbers(m: Machine, e: Example)
    ensures var r, x := TagsRecord(AfterCode(m, e), e), BodyRecord(e, m.linum, m.nth);
      r.startLinum == x.startLinum && r.nth == x.nth && r.endLinum == x.endLinum
  {
    AfterCodeNumbers(m, e);
    TagsRecordNumbers(AfterCode(m, e), e, m.linum, m.nth);
    BodyRecordNumbers(e, m.linum, m.nth);
  }

  /** The numbers of the record of the example itself read after line
      `linum`. */
  lemma BodyRecordNumbers(e: Example, linum: nat, nth: nat)
    ensures BodyRecord(e, linum, nth).startLinum == Some(linum + 1)
    ensures BodyRecord(e, linum, nth).nth == Some(nth)
    ensures BodyRecord(e, linum, nth).endLinum == Some(linum + BodyLength(e))
  {
  }

  /** The numbers of the record of the tags part read from a machine whose
      numbers are those after a code part read after line `linum`. */
  lemma TagsRecordNumbers(c: Machine, e: Example, linum: nat, nth: nat)
    ensures c.linum == linum + CodeLength(e) && c.nth == nth && c.spec.startLinum == Some(linum + 1) ==>
      var r := TagsRecord(c, e);
      r.startLinum == Some(linum + 1) && r.nth == Some(nth) && r.endLinum == Some(linum + BodyLength(e))
  {
  }

  /** The numbers of the machine after the code part. */
  lemma AfterCodeNumbers(m: Machine, e: Example)
    ensures var c := AfterCode(m, e);
      c.linum == m.linum + CodeLength(e) && c.nth == m.nth && c.spec.startLinum == Some(m.linum + 1)
  {
  }

  lemma RecordTexts(m: Machine, e: Example)
    ensures var r, x := TagsRecord(AfterCode(m, e), e), BodyRecord(e, m.linum, m.nth);
      r.inputFileName == x.inputFileName && r.code == x.code && r.cmdline == x.cmdline && r.tags == x.tags
  {
    NormalizeLineFeeds(JoinSegments(e.code), e.codeTrail);
  }

  /** In the `start` state, stripped lines that name no input file change
      nothing but the line number. */
  lemma {:induction false} LeadLines(m: Machine, ls: seq<string>)
    requires m.s == Start && GoodLead(ls)
    ensures Fold(m, Lined(ls)) == [] && Run(m, Lined(ls)) == m.(linum := m.linum + |ls|)
    decreases |ls|
  {
    if ls != [] {
      StepOutside(m, ls[0]);
      assert Lined(ls) == [ls[0] + "\n"] + Lined(ls[1..]);
      FoldCons(m, ls[0] + "\n", Lined(ls[1..]));
      assert GoodLead(ls[1..]) by {
        forall i | 0 <= i < |ls[1..]|
          ensures Stripped(ls[1..][i]) && MatchInputName(ls[1..][i]).None?
        {
          assert ls[1..][i] == ls[i + 1];
        }
      }
      LeadLines(m.(linum := m.linum + 1), ls[1..]);
    }
  }

  /** A page holding a complete example after text that names no input
      file is yielded as the example's one record; it starts on the input
      line and ends on the line after the tags block. */
  lemma ExampleYields(m: Machine, e: Example)
    requires m.s == Start && WellFormedExample(e)
    ensures Fold(m, Page(e)) == [Expected(e, m.linum, m.nth)]
    ensures var r := Run(m, Page(e));
      r.linum == m.linum + PageLength(e) && r.nth == m.nth + 1 && (MatchInputName(e.closer).None? ==> r.s == Start)
  {
    LeadOf(m, e);
    PageAfterLead(m, e);
    BodyYields(AfterLead(m, e), e);
    PartLengths(e);
    ExpectedOfBody(m, e);
  }

  /** The machine after the text before example `e`. */
  function AfterLead(m: Machine, e: Example): Machine
  {
    m.(linum := m.linum + |e.lead|)
  }

  /** The text before example `e`, read in the `start` state, changes
      nothing but the line number. */
  lemma LeadOf(m: Machine, e: Example)
    requires m.s == Start && GoodLead(e.lead)
    ensures Fold(m, Lined(e.lead)) == [] && Run(m, Lined(e.lead)) == AfterLead(m, e)
  {
    LeadLines(m, e.lead);
  }

  /** Text before the example that yields nothing and only moves the line
      number on, then the example. */
  lemma PageAfterLead(m: Machine, e: Example)
    ensures Fold(m, Lined(e.lead)) == [] && Run(m, Lined(e.lead)) == AfterLead(m, e) ==>
      Fold(m, Page(e)) == Fold(AfterLead(m, e), Body(e)) && Run(m, Page(e)) == Run(AfterLead(m, e), Body(e))
  {
    FoldAppend(m, Lined(e.lead), Body(e));
  }

  /** The record of the page is that of the example itself, read after the
      text before it. */
  lemma ExpectedOfBody(m: Machine, e: Example)
    ensures Expected(e, m.linum, m.nth) == BodyRecord(e, AfterLead(m, e).linum, AfterLead(m, e).nth)
  {
  }

  /** The pages of the examples one after another. */
  function Pages(es: seq<Example>): seq<string>
  {
    if es == [] then [] else Page(es[0]) + Pages(es[1..])
  }

  /** The records of examples `es` read after line `linum`, numbered from
      `nth`. */
  function ExpectedAll(es: seq<Example>, linum: nat, nth: nat): (r: seq<TestSpec>)
    ensures |r| == |es|
  {
    if es == [] then [] else [Expected(es[0], linum, nth)] + ExpectedAll(es[1..], linum + PageLength(es[0]), nth + 1)
  }

  /** Reading the first page, then the rest. */
  lemma PagesCons(m: Machine, es: seq<Example>, rec: TestSpec, tail: seq<TestSpec>)
    requires es != [] && Fold(m, Page(es[0])) == [rec]
    requires Fold(Run(m, Page(es[0])), Pages(es[1..])) == tail
    ensures Fold(m, Pages(es)) == [rec] + tail
  {
    assert Pages(es) == Page(es[0]) + Pages(es[1..]);
    FoldAppend(m, Page(es[0]), Pages(es[1..]));
  }

  /** The first page's record followed by those of the rest, which are read
      after line `linum` and numbered from `nth`. */
  lemma ExamplesCons(m: Machine, es: seq<Example>, linum: nat, nth: nat)
    requires es != [] && linum == m.linum + PageLength(es[0]) && nth == m.nth + 1
    requires Fold(m, Page(es[0])) == [Expected(es[0], m.linum, m.nth)]
    requires Fold(Run(m, Page(es[0])), Pages(es[1..])) == ExpectedAll(es[1..], linum, nth)
    ensures Fold(m, Pages(es)) == ExpectedAll(es, m.linum, m.nth)
  {
    ExpectedAllStep(es, m.linum, m.nth, linum, nth);
    PagesCons(m, es, Expected(es[0], m.linum, m.nth), ExpectedAll(es[1..], linum, nth));
  }

  /** One unfolding of `ExpectedAll`, the rest read after line `linum`. */
  lemma ExpectedAllStep(es: seq<Example>, linum0: nat, nth0: nat, linum: nat, nth: nat)
    requires es != [] && linum == linum0 + PageLength(es[0]) && nth == nth0 + 1
    ensures ExpectedAll(es, linum0, nth0) == [Expected(es[0], linum0, nth0)] + ExpectedAll(es[1..], linum, nth)
  {
    ExpectedAllCons(es, linum0, nth0);
    ExpectedAllArgs(es[1..], linum0 + PageLength(es[0]), nth0 + 1, linum, nth);
    ConsSame(ExpectedAll(es, linum0, nth0), Expected(es[0], linum0, nth0), ExpectedAll(es[1..], linum0 + PageLength(es[0]), nth0 + 1), ExpectedAll(es[1..], linum, nth));
  }

  /** A record followed by equal sequences. Like `ExpectedAllArgs`, this
      equality is cheap here and costly where the pages are in scope. */
  lemma ConsSame(all: seq<TestSpec>, rec: TestSpec, tail: seq<TestSpec>, tail': seq<TestSpec>)
    ensures all == [rec] + tail && tail == tail' ==> all == [rec] + tail'
  {
  }

  /** One unfolding of `ExpectedAll`. */
  lemma ExpectedAllCons(es: seq<Example>, linum: nat, nth: nat)
    ensures es != [] ==>
      ExpectedAll(es, linum, nth) == [Expected(es[0], linum, nth)] + ExpectedAll(es[1..], linum + PageLength(es[0]), nth + 1)
  {
  }

  /** `ExpectedAll` at equal line and case numbers. Kept as a lemma of its
      own, with its condition in the conclusion: proved where the pages are
      in scope, this equality of sequences costs the solver several times as
      much. */
  lemma ExpectedAllArgs(es: seq<Example>, linum: nat, nth: nat, linum': nat, nth': nat)
    ensures linum == linum' && nth == nth' ==> ExpectedAll(es, linum, nth) == ExpectedAll(es, linum', nth')
  {
  }

  /** The examples after the first are well formed too. */
  lemma ExamplesTail(es: seq<Example>)
    requires es != []
    requires forall k :: 0 <= k < |es| ==> WellFormedExample(es[k]) && MatchInputName(es[k].closer).None?
    ensures forall k :: 0 <= k < |es[1..]| ==> WellFormedExample(es[1..][k]) && MatchInputName(es[1..][k].closer).None?
  {
    forall k | 0 <= k < |es[1..]|
      ensures WellFormedExample(es[1..][k]) && MatchInputName(es[1..][k].closer).None?
    {
      assert es[1..][k] == es[k + 1];
    }
  }

  /** Examples read from the `start` state yield their records in order,
      numbered on from the machine's case number. */
  lemma {:induction false} ExamplesYield(m: Machine, es: seq<Example>)
    requires m.s == Start
    requires forall k :: 0 <= k < |es| ==> WellFormedExample(es[k]) && MatchInputName(es[k].closer).None?
    ensures Fold(m, Pages(es)) == ExpectedAll(es, m.linum, m.nth)
    decreases |es|
  {
    if es != [] {
      ExampleYields(m, es[0]);
      assert forall k :: 0 <= k < |es[1..]| ==> WellFormedExample(es[1..][k]) && MatchInputName(es[1..][k].closer).None? by {
        ExamplesTail(es);
      }
      ExamplesYield(Run(m, Page(es[0])), es[1..]);
      ExamplesCons(m, es, Run(m, Page(es[0])).linum, Run(m, Page(es[0])).nth);
    }
  }

  /** A page of N complete examples one after another yields exactly N
      records, the k-th one numbered k and carrying the k-th example's
      input file name, blocks and command line. */
  lemma CasesOfExamples(es: seq<Example>)
    requires forall k :: 0 <= k < |es| ==> WellFormedExample(es[k]) && MatchInputName(es[k].closer).None?
    ensures Cases(Pages(es)) == ExpectedAll(es, 0, 0)
    ensures |Cases(Pages(es))| == |es|
  {
    ExamplesYield(Init, es);
  }

  /** Whatever text follows them, a page that opens with N complete
      examples yields their records first, in order. */
  lemma CasesOfExamplesThen(es: seq<Example>, rest: seq<string>)
    requires forall k :: 0 <= k < |es| ==> WellFormedExample(es[k]) && MatchInputName(es[k].closer).None?
    ensures ExpectedAll(es, 0, 0) <= Cases(Pages(es) + rest)
  {
    CasesOfExamples(es);
    FoldAppend(Init, Pages(es), rest);
  }

  /** A page holding one complete example yields exactly its record: it
      starts on the line after the text before the example, is numbered 0,
      and carries the example's input file name, both blocks without their
      indentation and its command line. */
  lemma CaseOfExample(e: Example)
    requires WellFormedExample(e)
    ensures Cases(Page(e)) == [Expected(e, 0, 0)]
  {
    ExampleYields(Init, e);
  }
}
