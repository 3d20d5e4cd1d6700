/**
 * The result reporter `logDetails` of commands/deploy.js: it turns the detail
 * payload of a deploy into sorted success lines, sorted failure lines and an
 * optional test section with per-class coverage. Logging itself (colours,
 * number formatting) is not modelled: the report is the ordered content that
 * is logged.
 */
module Report {
  import opened Wrappers
  import opened Strings
  import Sorting

  /** One entry of `componentSuccesses`; a non-string or missing `componentType` is "". */
  datatype ComponentSuccess = ComponentSuccess(
    componentType: string, fullName: string, created: bool, changed: bool, deleted: bool)

  /** One entry of `componentFailures`; a missing line or column is None. */
  datatype ComponentFailure = ComponentFailure(
    componentType: string, fullName: string, problemType: string, problem: string,
    lineNumber: Option<int>, columnNumber: Option<int>)

  datatype CodeCoverage = CodeCoverage(
    typeName: string, name: string, numLocations: int, numLocationsNotCovered: int)

  /** `runTestResult`; `totalTime` is in milliseconds. */
  datatype RunTestResult = RunTestResult(
    numTestsRun: int, numFailures: int, totalTime: int, codeCoverage: seq<CodeCoverage>,
    codeCoverageWarnings: seq<string>, failures: seq<string>)

  /** The `details` payload; each part may be absent. */
  datatype Details = Details(
    componentSuccesses: Option<seq<ComponentSuccess>>,
    componentFailures: Option<seq<ComponentFailure>>,
    runTestResult: Option<RunTestResult>)

  /** The logger method chosen for a success (`e.method`). */
  datatype Action = Create | Update | Destroy | NoChange

  datatype SuccessLine = SuccessLine(action: Action, component: string)
  datatype FailureLine = FailureLine(component: string, problemType: string, line: int, column: int, problem: string)
  datatype CoverageRow = CoverageRow(
    typeName: string, name: string, locations: int, notCovered: int, covered: int, coverage: real)
  datatype TestSection = TestSection(
    failed: bool, testsRun: int, failures: int, totalSeconds: real,
    coverage: seq<CoverageRow>, warnings: seq<string>, failureMessages: seq<string>)

  /**
   * What is logged: the success lines in order, the "component successes [n]"
   * banner when something other than package.xml changed, the failure section
   * (present whenever the payload has a failure list, even an empty one), and
   * the test section.
   */
  datatype Report = Report(
    successes: seq<SuccessLine>, successBanner: Option<nat>,
    failures: Option<seq<FailureLine>>, tests: Option<TestSection>)

  /** `e.cType`: "<componentType>: " or "". */
  function ComponentLabel(componentType: string): string {
    if |componentType| > 0 then componentType + ": " else ""
  }

  /** `e.method`: created wins over changed, changed over deleted. */
  function Classify(s: ComponentSuccess): (a: Action)
    ensures a == Create <==> s.created
    ensures a == Update <==> !s.created && s.changed
    ensures a == Destroy <==> !s.created && !s.changed && s.deleted
    ensures a == NoChange <==> !s.created && !s.changed && !s.deleted
  {
    if s.created then Create
    else if s.changed then Update
    else if s.deleted then Destroy
    else NoChange
  }

  function SuccessKey(s: ComponentSuccess): string {
    ComponentLabel(s.componentType) + s.fullName
  }

  function FailureKey(f: ComponentFailure): string {
    ComponentLabel(f.componentType) + f.fullName
  }

  predicate SuccessLe(a: ComponentSuccess, b: ComponentSuccess) {
    LexLe(SuccessKey(a), SuccessKey(b))
  }

  predicate FailureLe(a: ComponentFailure, b: ComponentFailure) {
    LexLe(FailureKey(a), FailureKey(b))
  }

  /** `sortBy(c => c.coverage * -1)`: higher coverage first. */
  predicate CoverageLe(a: CoverageRow, b: CoverageRow) {
    a.coverage >= b.coverage
  }

  lemma SuccessOrder()
    ensures Sorting.TotalPreorder(SuccessLe)
  {
    forall a: ComponentSuccess, b: ComponentSuccess ensures SuccessLe(a, b) || SuccessLe(b, a) {
      LexLeTotal(SuccessKey(a), SuccessKey(b));
    }
    forall a: ComponentSuccess, b: ComponentSuccess, c: ComponentSuccess | SuccessLe(a, b) && SuccessLe(b, c)
      ensures SuccessLe(a, c)
    {
      LexLeTransitive(SuccessKey(a), SuccessKey(b), SuccessKey(c));
    }
  }

  lemma FailureOrder()
    ensures Sorting.TotalPreorder(FailureLe)
  {
    forall a: ComponentFailure, b: ComponentFailure ensures FailureLe(a, b) || FailureLe(b, a) {
      LexLeTotal(FailureKey(a), FailureKey(b));
    }
    forall a: ComponentFailure, b: ComponentFailure, c: ComponentFailure | FailureLe(a, b) && FailureLe(b, c)
      ensures FailureLe(a, c)
    {
      LexLeTransitive(FailureKey(a), FailureKey(b), FailureKey(c));
    }
  }

  function SuccessLineOf(s: ComponentSuccess): SuccessLine {
    SuccessLine(Classify(s), SuccessKey(s))
  }

  /** A missing (or zero) line or column is shown as 0. */
  function FailureLineOf(f: ComponentFailure): (l: FailureLine)
    ensures l.line == (if f.lineNumber.Some? then f.lineNumber.value else 0)
    ensures l.column == (if f.columnNumber.Some? then f.columnNumber.value else 0)
    ensures l.component == FailureKey(f)
  {
    FailureLine(FailureKey(f), f.problemType, f.lineNumber.GetOr(0), f.columnNumber.GetOr(0), f.problem)
  }

  /**
   * Coverage of one class, in percent: the covered share of its locations,
   * and exactly 100 for a class without locations.
   */
  function CoveragePercent(locations: int, notCovered: int): (p: real)
    ensures locations == 0 ==> p == 100.0
    ensures locations > 0 && notCovered == 0 ==> p == 100.0
    ensures locations > 0 && 0 <= notCovered <= locations ==> 0.0 <= p <= 100.0
    ensures locations > 0 && notCovered == locations ==> p == 0.0
  {
    if locations == 0 then 100.0
    else ((locations - notCovered) as real / locations as real) * 100.0
  }

  function CoverageRowOf(c: CodeCoverage): CoverageRow {
    var covered := c.numLocations - c.numLocationsNotCovered;
    CoverageRow(c.typeName, c.name, c.numLocations, c.numLocationsNotCovered, covered,
                CoveragePercent(c.numLocations, c.numLocationsNotCovered))
  }

  /** The coverage rows, listed only when coverage display was asked for and there is coverage. */
  function CoverageRows(cc: seq<CodeCoverage>, showCoverage: bool): seq<CoverageRow> {
    if showCoverage && |cc| > 0 then Sorting.SortBy(Sorting.Map(CoverageRowOf, cc), CoverageLe) else []
  }

  function TestSectionOf(t: RunTestResult, showCoverage: bool): TestSection {
    TestSection(t.numFailures != 0, t.numTestsRun, t.numFailures, t.totalTime as real / 1000.0,
                CoverageRows(t.codeCoverage, showCoverage), t.codeCoverageWarnings, t.failures)
  }

  /** A success that raises the `changed` flag: one other than package.xml that reports a change. */
  predicate IsChange(e: ComponentSuccess) {
    e.fullName != "package.xml" && e.changed
  }

  predicate SomethingChanged(ss: seq<ComponentSuccess>) {
    exists e :: e in ss && IsChange(e)
  }

  lemma {:induction false} CoverageRowsSorted(cc: seq<CodeCoverage>, showCoverage: bool)
    ensures var rows := CoverageRows(cc, showCoverage);
      && (showCoverage && |cc| > 0 ==> multiset(rows) == multiset(Sorting.Map(CoverageRowOf, cc)))
      // stable: rows of equal coverage keep the order of the payload
      && (showCoverage && |cc| > 0 ==>
            (forall k :: Sorting.Equivalents(rows, k, CoverageLe) == Sorting.Equivalents(Sorting.Map(CoverageRowOf, cc), k, CoverageLe)))
      && (!showCoverage || |cc| == 0 ==> rows == [])
      && forall i, j :: 0 <= i < j < |rows| ==> rows[i].coverage >= rows[j].coverage
  {
    if showCoverage && |cc| > 0 {
      assert Sorting.TotalPreorder(CoverageLe);
      Sorting.SortByCorrect(Sorting.Map(CoverageRowOf, cc), CoverageLe);
    }
  }

  /**
   * The `.each` over the sorted successes: one line per component, in order,
   * and the `changed` flag raised by any change other than package.xml.
   */
  method EachSuccess(sorted: seq<ComponentSuccess>) returns (lines: seq<SuccessLine>, changed: bool)
    ensures lines == Sorting.Map(SuccessLineOf, sorted)
    ensures changed == SomethingChanged(sorted)
  {
    changed := false;
    lines := [];
    var i := 0;
    while i < |sorted|
      invariant 0 <= i <= |sorted|
      invariant |lines| == i
      invariant forall j :: 0 <= j < i ==> lines[j] == SuccessLineOf(sorted[j])
      invariant changed <==> SomethingChanged(sorted[..i])
    {
      var e := sorted[i];
      if IsChange(e) {
        changed := true;
      }
      lines := lines + [SuccessLineOf(e)];
      assert sorted[..i + 1] == sorted[..i] + [e];
      i := i + 1;
    }
    assert sorted[..i] == sorted;
  }

  /** The success lines in the order they are logged. */
  function SuccessLines(ss: seq<ComponentSuccess>): seq<SuccessLine> {
    Sorting.Map(SuccessLineOf, Sorting.SortBy(ss, SuccessLe))
  }

  /**
   * The successes part of `logDetails`: sorted by `cType + fullName`, each
   * component logged with its action, and the banner when something changed.
   */
  method LogSuccesses(ss: seq<ComponentSuccess>) returns (lines: seq<SuccessLine>, banner: Option<nat>)
    ensures multiset(lines) == multiset(Sorting.Map(SuccessLineOf, ss))
    ensures forall i, j :: 0 <= i < j < |lines| ==> LexLe(lines[i].component, lines[j].component)
    ensures banner == (if SomethingChanged(ss) then Some(|ss|) else None)
    ensures lines == SuccessLines(ss)
  {
    var sorted := Sorting.SortBy(ss, SuccessLe);
    var changed;
    lines, changed := EachSuccess(sorted);
    SuccessesSorted(ss);
    Sorting.MapPermutation(SuccessLineOf, sorted, ss);
    ChangedPermutation(sorted, ss);
    banner := if changed then Some(|ss|) else None;
  }

  lemma SuccessesSorted(ss: seq<ComponentSuccess>)
    ensures var sorted := Sorting.SortBy(ss, SuccessLe);
      && multiset(sorted) == multiset(ss)
      && forall i, j :: 0 <= i < j < |sorted| ==> LexLe(SuccessKey(sorted[i]), SuccessKey(sorted[j]))
  {
    SuccessOrder();
    Sorting.SortByCorrect(ss, SuccessLe);
  }

  /** The failures part of `logDetails`: sorted by `cType + fullName`, line and column defaulting to 0. */
  function FailureLines(fs: seq<ComponentFailure>): seq<FailureLine> {
    Sorting.Map(FailureLineOf, Sorting.SortBy(fs, FailureLe))
  }

  lemma FailureLinesSorted(fs: seq<ComponentFailure>)
    ensures var lines := FailureLines(fs);
      && multiset(lines) == multiset(Sorting.Map(FailureLineOf, fs))
      && forall i, j :: 0 <= i < j < |lines| ==> LexLe(lines[i].component, lines[j].component)
  {
    FailureOrder();
    Sorting.SortByCorrect(fs, FailureLe);
    Sorting.MapPermutation(FailureLineOf, Sorting.SortBy(fs, FailureLe), fs);
  }

  /** What `logDetails` logs for a reply's details: the sections in order, each present when its part is. */
  function ReportOf(details: Option<Details>, showCoverage: bool): Option<Report> {
    match details
    case None => None
    case Some(d) =>
      Some(Report(
        if d.componentSuccesses.Some? then SuccessLines(d.componentSuccesses.value) else [],
        if d.componentSuccesses.Some? && SomethingChanged(d.componentSuccesses.value)
        then Some(|d.componentSuccesses.value|) else None,
        if d.componentFailures.Some? then Some(FailureLines(d.componentFailures.value)) else None,
        if d.runTestResult.Some? && d.runTestResult.value.numTestsRun > 0
        then Some(TestSectionOf(d.runTestResult.value, showCoverage)) else None))
  }

  /**
   * `logDetails(details, opts)`: nothing without details; otherwise the
   * successes, the failures and, only when tests ran, the test section.
   */
  method LogDetails(details: Option<Details>, showCoverage: bool) returns (r: Option<Report>)
    ensures details.None? <==> r.None?
    ensures r.Some? ==> var d, rep := details.value, r.value;
      && (d.componentSuccesses.None? ==> rep.successes == [] && rep.successBanner.None?)
      && (d.componentSuccesses.Some? ==>
            var ss := d.componentSuccesses.value;
            && multiset(rep.successes) == multiset(Sorting.Map(SuccessLineOf, ss))
            && (forall i, j :: 0 <= i < j < |rep.successes| ==> LexLe(rep.successes[i].component, rep.successes[j].component))
            && rep.successBanner == (if SomethingChanged(ss) then Some(|ss|) else None))
      && (d.componentFailures.None? <==> rep.failures.None?)
      && (d.componentFailures.Some? ==>
            var lines := rep.failures.value;
            && multiset(lines) == multiset(Sorting.Map(FailureLineOf, d.componentFailures.value))
            && (forall i, j :: 0 <= i < j < |lines| ==> LexLe(lines[i].component, lines[j].component)))
      && (rep.tests.Some? <==> d.runTestResult.Some? && d.runTestResult.value.numTestsRun > 0)
      && (rep.tests.Some? ==> rep.tests.value == TestSectionOf(d.runTestResult.value, showCoverage))
    ensures r == ReportOf(details, showCoverage)
  {
    if details.None? {
      return None;
    }
    var d := details.value;

    var successes: seq<SuccessLine> := [];
    var banner: Option<nat> := None;
    if d.componentSuccesses.Some? {
      successes, banner := LogSuccesses(d.componentSuccesses.value);
    }

    var failures: Option<seq<FailureLine>> := None;
    if d.componentFailures.Some? {
      FailureLinesSorted(d.componentFailures.value);
      failures := Some(FailureLines(d.componentFailures.value));
    }

    var tests: Option<TestSection> := None;
    if d.runTestResult.Some? && d.runTestResult.value.numTestsRun > 0 {
      tests := Some(TestSectionOf(d.runTestResult.value, showCoverage));
    }
    r := Some(Report(successes, banner, failures, tests));
  }

  lemma ChangedPermutation(s: seq<ComponentSuccess>, t: seq<ComponentSuccess>)
    requires multiset(s) == multiset(t)
    ensures SomethingChanged(s) <==> SomethingChanged(t)
  {
    if SomethingChanged(s) {
      var e :| e in s && IsChange(e);
      assert e in multiset(t);
    }
    if SomethingChanged(t) {
      var e :| e in t && IsChange(e);
      assert e in multiset(s);
    }
  }
}
