/** The `test_spec` dictionary the extractor fills in and yields, and
    `verify_test_case`, the completeness check made before a case is run
    (misc/man-test.py:43-55). */
module TestSpecs {
  import opened Wrappers
  import opened Strings

  /** The keys the extractor sets, each `None` while absent from the
      dictionary. `man_file`, which the caller adds, is not a field: it is
      passed to `VerifyTestCase`. */
  datatype TestSpec = TestSpec(
    startLinum: Option<nat>,      // 'start_linum'
    inputFileName: Option<string>, // 'input_file_name'
    code: Option<string>,         // 'code'
    cmdline: Option<string>,      // 'cmdline'
    tags: Option<string>,         // 'tags'
    nth: Option<nat>,             // 'nth'
    endLinum: Option<nat>)        // 'end_linum'

  /** The dictionary `{}` the extractor starts from. */
  const EmptySpec := TestSpec(None, None, None, None, None, None, None)

  /** Every key the extractor sets is present. */
  predicate Complete(t: TestSpec)
  {
    t.startLinum.Some? && t.inputFileName.Some? && t.code.Some? && t.cmdline.Some? &&
    t.tags.Some? && t.nth.Some? && t.endLinum.Some?
  }

  /** `False`, a message, or the `KeyError` that formatting the location
      raises when `nth` or `start_linum` is absent. */
  datatype Verdict = Valid | Invalid(message: string) | MissingKey(key: string)

  /** `'%(man_file)s[%(nth)d]:%(start_linum)d: ' % t` */
  function LocationPrefix(manFile: string, nth: nat, startLinum: nat): string
  {
    manFile + "[" + NatToString(nth) + "]:" + NatToString(startLinum) + ": "
  }

  const NoCode := "cannot find input lines"
  const NoTags := "cannot find expected tags output"
  const NoCmdline := "cannot find ctags command line"

  /** `verify_test_case`: `Valid` exactly when code, tags and command line
      are all present; otherwise the first one missing, in that order, is
      reported after the case's location. */
  function VerifyTestCase(manFile: string, t: TestSpec): (r: Verdict)
    ensures r.MissingKey? <==> t.nth.None? || t.startLinum.None?
    ensures r.MissingKey? ==> r.key == if t.nth.None? then "nth" else "start_linum"
    ensures r == Valid <==>
      t.nth.Some? && t.startLinum.Some? && t.code.Some? && t.tags.Some? && t.cmdline.Some?
    ensures r.Invalid? ==>
      var at := LocationPrefix(manFile, t.nth.value, t.startLinum.value);
      && (t.code.None? ==> r.message == at + NoCode)
      && (t.code.Some? && t.tags.None? ==> r.message == at + NoTags)
      && (t.code.Some? && t.tags.Some? ==> t.cmdline.None? && r.message == at + NoCmdline)
  {
    if t.nth.None? then MissingKey("nth")
    else if t.startLinum.None? then MissingKey("start_linum")
    else
      var at := LocationPrefix(manFile, t.nth.value, t.startLinum.value);
      if t.code.None? then Invalid(at + NoCode)
      else if t.tags.None? then Invalid(at + NoTags)
      else if t.cmdline.None? then Invalid(at + NoCmdline)
      else Valid
  }
}
