# man-test.py extractor and options reconstruction, in Dafny

This project models the verified core of ctags' `misc/man-test.py`. That
script runs the examples written in the ctags language man pages as tests.
The model covers three parts.

- **Extraction.** `extract_test_cases` is a single-pass, line-driven state
  machine. Its states are `start`, `tags`, `code`, `code_done`, `input`,
  `output` and `output_after_options`. It recovers each documented example
  from the page and yields it as a record:
  - an `"input.<ext>"` line;
  - an indented code block;
  - an `"output.tags"` line;
  - a line with `with "<cmdline>"`;
  - an indented block of expected tags.
- **The pure helpers.** These are `next_segment` (the backslash line
  continuation), `verify_test_case` and the `is_option` heuristic.
- **The options loop of `run_test_case`.** It turns the documented command
  line into the lines of the options file and the input file name.

The modules follow the script:

- `Strings` holds the Python string operations the code relies on:
  `startswith`, `rstrip('\r\n')`, `split()` and `%d`.
- `Regexes` has one definition per regular expression. Each one is written
  by hand with Python's semantics. `.` does not match a line feed, but
  `[^"]` does. Greedy `[ \t]+` backtracks. `re.search` finds the leftmost
  match.
- `Blocks` holds `next_segment` and the block-line logic shared by the code
  and tags states.
- `TestSpecs` holds the `test_spec` dictionary and `verify_test_case`.
- `Options` holds `is_option` and the options loop.
- `Extractor` holds the state machine.

The extractor's loop variables are the fields of the class
`Extractor.LineReader`. Its `Feed` method runs one pass of the loop body. It
is split as the source is: the block logic (`ReadBlock`), then the
state-entry tests (`EnterState`). `Feed` is proved equal to the transition
function `Extractor.Step`. `Extractor.ExtractTestCases` is the loop over the
lines, and is proved equal to the functional `Extractor.Cases`. All the
record properties are proved about `Cases`.

`Enter` is the chain of state-entry tests. Each test also checks the state,
so the chain is modelled as a dispatch on the state.

In three places the code does something other than what one would expect.
The model follows the code:

- **Whitespace-only lines.** One would expect the whole leading whitespace
  of the first indented line to become the prefix, and every blank line
  before it to be skipped. In the code, a line of two or more blanks and
  nothing else matches `^([ \t]+)(.+)$`. It therefore sets the prefix to
  all but its last character (`Regexes.MatchIndented`). Only empty lines
  and single-blank lines are skipped (`Regexes.BlankLineSkipped`).
- **Unescaped dots.** One would expect `"output.tags"` and
  `.. code-block::` to be matched literally. In the code, their unescaped
  dots accept any character but a line feed (`Regexes.UnescapedDots`).
- **A second `--regex-` token.** One would expect each pattern to be
  written. In the code, a second `--regex-` token replaces a pending
  pattern, which is then never written (`Options.PatternReplaced`).

## Model

| member | source | states |
|---|---|---|
| Strings.RStripNewlines | misc/man-test.py:172 | the result is a prefix of the line that does not end in `\r` or `\n`, and everything removed is `\r` or `\n` |
| Strings.Split | misc/man-test.py:84 | every token is non-empty and free of whitespace, and the tokens concatenated are the string with its whitespace removed |
| Strings.SplitWordThen | misc/man-test.py:84 | a whitespace-free word followed by the end or by white space is the first token, and splitting goes on after it |
| Strings.SplitSpaceThen | misc/man-test.py:84 | white space in front of the string yields no token; with `SplitWordThen` this fixes `split()` on every string |
| Strings.SplitJoinSpaces | misc/man-test.py:84 | splitting whitespace-free tokens joined by single spaces gives back the tokens |
| Strings.StripFeeds | misc/man-test.py:189 | line feeds added at the end of a string are removed again by `rstrip('\r\n')` |
| Strings.NatToString | misc/man-test.py:44 | `%d` is a non-empty digit string with no leading zero |
| Strings.NatToStringValue | misc/man-test.py:44 | the digits of `%d` denote the number again |
| Regexes.MatchPrefixed | misc/man-test.py:176 | matches exactly when the line starts with the prefix and the rest has no line feed; group 1 is that rest |
| Regexes.MatchIndented | misc/man-test.py:182-183 | matches exactly when the line has at least two characters, starts with a blank and has no line feed; the groups split the line into a non-empty blank prefix and a non-empty rest, which starts with a non-blank unless it is the single last character |
| Regexes.MatchBlankLine | misc/man-test.py:186 | `^([ \t]*)$`: the line is empty or made of spaces and tabs only |
| Regexes.BlankLineSkipped | misc/man-test.py:182-187 | of the lines `^([ \t]+)(.+)$` does not match, `^([ \t]*)$` matches exactly the empty line and a single blank |
| Regexes.MatchInputName | misc/man-test.py:202-204 | matches exactly the lines `"input.<one or more non-quote characters>"`, and gives back the quoted name |
| Regexes.MatchCodeBlock | misc/man-test.py:207 | `^.. code-block::.*`: two characters other than a line feed, then ` code-block::`, then anything |
| Regexes.MatchOutputTags | misc/man-test.py:212 | `^"output.tags"$`: the 13-character line whose eighth character is anything but a line feed |
| Regexes.MatchTagsIntroducer | misc/man-test.py:219-220 | the line is `::`, or two characters other than a line feed, ` code-block::`, any number of spaces and `tags` at the end |
| Regexes.UnescapedDots | misc/man-test.py:207-212 | `"output?tags"` is accepted for every character `?` but a line feed, and so is a code-block directive whose first two characters are any but a line feed |
| Regexes.TagsIntroducerSpaces | misc/man-test.py:219-220 | after two characters other than a line feed and ` code-block::`, the text before `tags` is accepted exactly when it is a run of spaces, possibly empty |
| Regexes.SearchWithFromLeftmost | misc/man-test.py:215 | searching from `i` finds nothing exactly when `with[ \t]"[^"]+"` occurs at no position from `i` on; otherwise it gives the group at the leftmost occurrence |
| Regexes.SearchWith | misc/man-test.py:215-216 | the command line captured is non-empty and has no quote |
| Regexes.SearchWithLeftmost | misc/man-test.py:215-216 | `re.search` finds nothing exactly when there is no occurrence; otherwise the group is taken at the leftmost occurrence |
| Blocks.NextSegmentBackslash | misc/man-test.py:37-38 | a segment ending in a backslash is the line without it |
| Blocks.ContinuationLaw | misc/man-test.py:37-38 | a logical line wrapped over physical lines ending in backslashes is read back as its pieces joined, plus one line feed |
| Blocks.Normalize | misc/man-test.py:189 | the finished block is normalized: it ends in its only final line feed, with no `\r` or `\n` before it |
| Blocks.NormalizeStrips | misc/man-test.py:189 | the finished block is the buffer up to its final line feed, and only `\r`/`\n` characters of the buffer were dropped |
| Blocks.NormalizeIdempotent | misc/man-test.py:189 | normalizing a normalized block changes nothing |
| Blocks.ReadBlockLine | misc/man-test.py:174-189 | a line that closes the block gives the normalized buffer |
| Blocks.BlockLineRules | misc/man-test.py:174-189 | with a prefix, a prefixed line appends `next_segment(rest)`, an empty line appends a line feed and any other line closes the block; without a prefix, a `^([ \t]+)(.+)$` line sets group 1 as the prefix and appends `next_segment` of group 2, a blank-only line is skipped and any other line closes the block |
| Blocks.IndentedSplit | misc/man-test.py:182-183 | a blank indentation followed by text is taken whole as the prefix |
| Blocks.FirstIndentedLine | misc/man-test.py:182-185 | before the prefix is fixed, a line of a run of blanks followed by text sets that run as the prefix and adds `next_segment` of the text |
| Blocks.EmptyLineAsPrefix | misc/man-test.py:175-181 | once the prefix is fixed, an empty line adds one line feed, as a line holding only the prefix does |
| Blocks.EmptiesRead | misc/man-test.py:179-181 | once the prefix is fixed, `n` empty lines add `n` line feeds to the buffer |
| Blocks.PrefixedLayout | misc/man-test.py:175-181 | once the prefix is fixed, the lines of a block written with it, empty lines left empty, add their text by the continuation rule |
| Blocks.LayoutIrrelevant | misc/man-test.py:174-185 | a block written with any run of blanks as its indentation, its empty lines left empty and its first line starting with text, is read as its text without the indentation |
| TestSpecs.VerifyTestCase | misc/man-test.py:43-55 | a missing `nth` or `start_linum` makes formatting the location fail; otherwise `False` exactly when code, tags and command line are present, and the message for the first one missing, in that order, after `file[nth]:start_linum: ` |
| Options.HasLongOptionFrom | misc/man-test.py:58 | true exactly when `--[a-z_]` occurs at or after `i` |
| Options.IsOption | misc/man-test.py:57-62 | true exactly when `--` and a lower-case letter or underscore occur anywhere in the token, or the token is `-` and one lower-case letter (with an optional final line feed) |
| Options.PatternIsOption | misc/man-test.py:90-91 | a `--regex-` token is not skipped and looks like an option |
| Options.Reconstruct | misc/man-test.py:84-101 | the loop on the remaining tokens, given the pending pattern and the input file so far: `--options=NONE` is dropped, `input.*` is captured, `--regex-` starts a pattern, a non-option extends a pending one, anything else flushes it and is written; at the end the pending pattern is written |
| Options.OptionsFileOf | misc/man-test.py:81-101 | the options file of a command line is the loop on its `split()` tokens with no pattern pending and no input file |
| Options.WriteOptionsFile | misc/man-test.py:81-101 | the loop computes `OptionsFileOf(cmdline)`; `--options=NONE` and `input.*` tokens are never written; the input file is the last `input.*` token, or none when there is none |
| Options.ReconstructClean | misc/man-test.py:84-89 | no written line is `--options=NONE` or starts with `input.` |
| Options.InputFileIsLast | misc/man-test.py:87-89 | the captured input file is the last `input.*` token, and otherwise the one captured before |
| Options.SkippedDoNotFlush | misc/man-test.py:84-89 | the written lines equal those of the command line with the skipped tokens removed, whatever the input file |
| Options.PendingAbsorbs | misc/man-test.py:92-101 | a pending pattern swallows the following non-option tokens and is written, joined by single spaces, before the next option or at the end |
| Options.PatternGroup | misc/man-test.py:90-101 | `--regex-` and the tokens it swallows are written as one line, before the option that ends the group |
| Options.PatternReplaced | misc/man-test.py:90-91 | a second `--regex-` token discards the pending pattern: the output is as if the first group were absent |
| Options.PendingReplaced | misc/man-test.py:90-93 | a pending pattern and its swallowed tokens vanish when a `--regex-` token follows |
| Options.NoPatternKeepsOrder | misc/man-test.py:95-99 | without `--regex-` tokens, the written lines are the non-skipped tokens in order |
| Extractor.Enter | misc/man-test.py:202-224 | the state-entry tests change neither the line number nor the case number |
| Extractor.EnterMoves | misc/man-test.py:202-224 | the machine moves exactly when the test of its state matches the line, only along `start`→`input`→`code` and `code_done`→`output`→`output_after_options`→`tags`, and is unchanged otherwise |
| Extractor.EnterFacts | misc/man-test.py:202-206 | entering `input` records the current line as `start_linum` and an `input.` name; the other entries keep them |
| Extractor.CloseBlock | misc/man-test.py:189-200 | storing a finished block keeps the line number and leaves the block in `sink`; a record is yielded exactly when the block is not the code block, and it is the stored dictionary, with `nth` incremented |
| Extractor.Step | misc/man-test.py:170-171 | each pass counts one line |
| Extractor.StepShape | misc/man-test.py:174-200 | a record is yielded exactly when a tags block is being read and the line closes it; an absorbed line changes only the prefix and the buffer; closing the code block stores the normalized buffer |
| Extractor.StepCloses | misc/man-test.py:189-206 | a line closing a block stores the normalized buffer and then goes through the state-entry tests |
| Extractor.CloseCode | misc/man-test.py:189-193 | closing the code block keeps `Inv` and `Low` and the case number, yields nothing, moves to `code_done` and stores the block as `code` |
| Extractor.StepClosesCode | misc/man-test.py:189-193 | a line closing the code block keeps `Inv` |
| Extractor.CloseTags | misc/man-test.py:194-200 | closing the tags block yields a complete record numbered `nth`, ending on the current line, and moves to `start` |
| Extractor.StepClosesTags | misc/man-test.py:194-206 | a line closing the tags block keeps `Inv` and yields a complete record numbered `nth` that ends on that line |
| Extractor.StepFacts | misc/man-test.py:170-224 | one step keeps `Inv`, never lowers `Low`, and a yielded record is complete, numbered `nth`, ends on the current line and lies between the two `Low`s |
| Extractor.LineReader.Feed | misc/man-test.py:170-224 | one pass of the loop body on the fields is `Step` |
| Extractor.LineReader.ReadBlock | misc/man-test.py:174-200 | the block logic: an absorbed line updates only the prefix and the buffer; a closing line stores the block and yields the case after a tags block |
| Extractor.LineReader.EnterState | misc/man-test.py:202-224 | the state-entry tests, at most one firing per line |
| Extractor.LineReader.constructor | misc/man-test.py:165-168 | the machine starts in `start` with line 0, case 0 and an empty dictionary |
| Extractor.ExtractTestCases | misc/man-test.py:164-224 | the loop yields `Cases(lines)`: records numbered 0, 1, 2, …, each complete, with `1 <= start_linum < end_linum <= len(lines)`, an `input.` name and normalized blocks, each ending no later than the next starts |
| Extractor.FoldInv | misc/man-test.py:196-197 | over many lines `Inv` is kept and one record is yielded per increment of `nth` |
| Extractor.FoldRecords | misc/man-test.py:192-206 | every record yielded from a machine keeping `Inv` is well formed, numbered consecutively, and within the line bounds |
| Extractor.FoldChained | misc/man-test.py:198-206 | records yielded from a machine keeping `Inv` are chained |
| Extractor.CasesWellFormed | misc/man-test.py:192-206 | the records of a file are numbered 0, 1, 2, …, complete, with a non-empty span inside the file, and each ends no later than the next starts |
| Extractor.CasesVerify | misc/man-test.py:43-55 | `verify_test_case` returns `False` on every record the extractor yields |
| Extractor.PendingCaseDropped | misc/man-test.py:170-200 | at the end of input, as many records came out as `nth` counts; a case still open (a tags block running to the end included) is not yielded, and every yielded record ended no later than it started |
| Extractor.AppendLine | misc/man-test.py:170-172 | reading one more line is one more `Step` |
| Extractor.YieldOnlyOnTagsClose | misc/man-test.py:194-200 | one more line keeps the records already yielded and adds one exactly when it closes a tags block |
| Extractor.Cases | misc/man-test.py:164-224 | the records of a whole file: the transition function folded over its lines from the initial machine (no contract of its own; its properties are the rows below) |
| Extractor.GapOutside | misc/man-test.py:202-224 | outside the two blocks no state test matches an empty line, so empty lines yield nothing and change only the line number |
| Extractor.GapBeforeBlock | misc/man-test.py:186-187 | in a block whose prefix is not yet fixed, empty lines match `^([ \t]*)$`, yield nothing and change only the line number |
| Extractor.GapInBlock | misc/man-test.py:179-181 | once the prefix is fixed, each empty line adds one line feed to the buffer and nothing else changes |
| Extractor.NormalizeLineFeeds | misc/man-test.py:189 | the line feeds that empty lines at the end of a block add are removed again when the block is stored |
| Extractor.ReadHead | misc/man-test.py:202-211 | an `"input.<ext>"` line and a code-block directive, each followed by any number of empty lines, yield nothing and leave the machine in `code` with no prefix, an empty buffer, the input line as `start_linum` and its name stored |
| Extractor.ReadCodePart | misc/man-test.py:202-211 | an `"input.<ext>"` line, a code-block directive and an indented code block, with empty lines after each, yield nothing and leave the machine in `code` with the unindented block in the buffer, `start_linum` and the input name stored |
| Extractor.ReadMiddle | misc/man-test.py:189-224 | in the code block, an `"output.tags"` line closes it and stores it as `code`; with the command line and the tags-block introducer, each followed by empty lines, nothing is yielded and the machine is in `tags` with no prefix, an empty buffer and the command line stored |
| Extractor.ReadClosingLine | misc/man-test.py:189-200 | the first non-blank line after the tags block closes it and yields the record with the tags block, without the empty lines ending it, `nth` and that line as `end_linum` |
| Extractor.ReadTagsPart | misc/man-test.py:189-224 | from the code state, the `"output.tags"` line, the command line, the introducer, an indented tags block and a closing line, with empty lines between them, yield one record: the stored dictionary with the code block, the command line, the tags block, `nth` and the closing line |
| Extractor.ReadIndentedBlock | misc/man-test.py:174-187 | an indented block, empty lines inside it included, and the empty lines after it yield nothing; the buffer holds the block's text without indentation and one line feed per empty line after it |
| Extractor.BodyYields | misc/man-test.py:164-224 | a complete example read from `start`, with any number of empty lines after each of its single lines and at the end of each block, yields exactly one record, carrying its input name, its code block, its command line and its tags block read without indentation, its first line as `start_linum` and the closing line as `end_linum` |
| Extractor.LeadLines | misc/man-test.py:202-206 | in `start`, lines that are not an `"input.<ext>"` line, a title and prose for instance, yield nothing and change only the line number |
| Extractor.ExampleYields | misc/man-test.py:164-224 | text naming no input file, then a complete example, read from `start`, yield exactly the example's one record, which starts on the input line after that text and ends on the closing line |
| Extractor.CaseOfExample | misc/man-test.py:164-224 | a page holding one complete example after such text yields exactly its record, numbered 0 and starting on the line after the text |
| Extractor.ExamplesYield | misc/man-test.py:164-224 | complete examples one after another, each after its own text, yield their records in order, numbered consecutively, each starting on its own input line |
| Extractor.CasesOfExamples | misc/man-test.py:164-224 | a page of N complete examples, each after its own text, yields exactly N records, the k-th being example k's, numbered k |
| Extractor.CasesOfExamplesThen | misc/man-test.py:164-224 | whatever text follows them, a page that opens with N complete examples yields their N records first |

## Left out

- Staging of files and the external commands of `run_test_case` (misc/man-test.py:64-80, 103-127) are left out. These are the temporary directory, writing the input, expected and options files, running ctags and `diff`, reading results back and removing the files. They are file-system I/O and processes.
- `report_result`, `report_failure`, `man_test`, `man_tests` and the command-line handling (misc/man-test.py:129-153, 226-260) are left out. They are printing and orchestration.
- `wash_cmdline` (misc/man-test.py:40-41) is the identity, so the captured command line is stored unchanged.
- Reading the man page: the model takes the sequence of lines `readlines()` returns. Text-mode newline translation happens before it.
- `man_file` is not a field of the record. The caller adds it after the yield, so it is a parameter of `TestSpecs.VerifyTestCase`.
- The yielded object: the source yields the one dictionary it keeps reusing, and a consumer that kept it across later yields would see it change. The model yields a snapshot of its contents at each `yield`. The extractor reassigns every key it sets on the path to each yield, and its consumer uses each record before asking for the next.
- Each line of the options file gets a final line feed from `print`. The model gives the lines without it.
- Extractor.CasesWellFormed: states `end_linum <= start_linum` of the next record, not that equality can happen. Equality happens when the line closing a tags block is the next `"input.…"` line.
- Extractor.ExampleYields: any text may come before the example if no line of it is an `"input.…"` line, and a block may hold empty lines. Two limits remain. First, the gaps after the example's single lines (the input line, the directives, the `"output.tags"` and command lines) are empty lines. The source passes over any other line its state test rejects in the same way, but the model does not state it. Second, lines of blanks only are not stated, either in the gaps or in the blocks. Outside the blocks they are passed over like empty lines. In a block, one shorter than the prefix closes it (misc/man-test.py:175-189), and before the prefix two or more blanks set it.
- Extractor.BodyYields: the same two limits as `ExampleYields`, with no text before the example.
- Extractor.CaseOfExample: the same two limits as `ExampleYields`: gaps of empty lines only, and no lines of blanks only.
- Extractor.ExamplesYield: the same two limits as `ExampleYields`. It also requires that no example's closing line is itself an `"input.…"` line. Such a line starts the next example at once, which `ExampleYields` states separately for one page (`r.s == Start` only when the closer is not an input line).
- Extractor.CasesOfExamples: the same limits as `ExamplesYield`: gaps of empty lines only, no lines of blanks only, and no closing line that is an `"input.…"` line.
- Extractor.CasesOfExamplesThen: the same limits as `CasesOfExamples` for the examples; the text after them is arbitrary, and only the records it adds after theirs are not stated.
