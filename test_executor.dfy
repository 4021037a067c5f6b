/** Running a project's tests and reading their results
    (ai_orchestrator/execution/test_executor.py).

    The framework is detected from `package.json` and marker files, the
    command comes from the caller or the framework's default, the run itself
    is an oracle (`Execution`), and each framework's parser turns the summary
    numbers the regular expressions extract into counts and a verdict. */
module TestExecutor {
  import opened Text
  import opened Files

  datatype TestFramework = Pytest | Unittest | Jest | Mocha | Vitest | Django | Unknown

  datatype TestStatus = Passed | Failed | Skipped | Error | Pending

  datatype TestCase = TestCase(
    name: string,
    status: TestStatus,
    filePath: Option<string>,
    errorMessage: Option<string>,
    stackTrace: Option<string>)

  datatype TestSuite = TestSuite(name: string, tests: seq<TestCase>, filePath: Option<string>)

  datatype TestResult = TestResult(
    framework: TestFramework,
    success: bool,
    totalTests: int,
    passed: int,
    failed: int,
    skipped: int,
    errors: int,
    suites: seq<TestSuite>,
    rawOutput: string,
    command: string,
    exitCode: int)

  /** A result with every count at zero, as the parsers start from. */
  function EmptyResult(framework: TestFramework): TestResult
  {
    TestResult(framework, false, 0, 0, 0, 0, 0, [], "", "", 0)
  }

  // ---------------------------------------------------------------------
  // Suite counts.

  /** The number of tests whose status is in `statuses`. */
  function CountWhere(tests: seq<TestCase>, statuses: set<TestStatus>): (n: nat)
    ensures n <= |tests|
  {
    if tests == [] then 0
    else (if tests[0].status in statuses then 1 else 0) + CountWhere(tests[1..], statuses)
  }

  function PassedCount(s: TestSuite): nat { CountWhere(s.tests, {Passed}) }

  /** FAILED and ERROR tests both count as failed. */
  function FailedCount(s: TestSuite): nat { CountWhere(s.tests, {Failed, Error}) }

  function SkippedCount(s: TestSuite): nat { CountWhere(s.tests, {Skipped}) }

  lemma {:induction false} CountWhereUnion(tests: seq<TestCase>, a: set<TestStatus>, b: set<TestStatus>)
    requires a !! b
    ensures CountWhere(tests, a) + CountWhere(tests, b) == CountWhere(tests, a + b)
  {
    if tests != [] {
      CountWhereUnion(tests[1..], a, b);
    }
  }

  lemma {:induction false} CountWhereAll(tests: seq<TestCase>)
    ensures CountWhere(tests, {Passed, Failed, Skipped, Error, Pending}) == |tests|
  {
    if tests != [] {
      CountWhereAll(tests[1..]);
      match tests[0].status {
        case Passed =>
        case Failed =>
        case Skipped =>
        case Error =>
        case Pending =>
      }
    }
  }

  /** Passed, failed and skipped together are exactly the tests that are
      not pending. */
  lemma SuiteCountsCoverNonPending(s: TestSuite)
    ensures PassedCount(s) + FailedCount(s) + SkippedCount(s) == |s.tests| - CountWhere(s.tests, {Pending})
  {
    CountWhereUnion(s.tests, {Passed}, {Failed, Error});
    CountWhereUnion(s.tests, {Passed, Failed, Error}, {Skipped});
    CountWhereUnion(s.tests, {Passed, Failed, Error, Skipped}, {Pending});
    CountWhereAll(s.tests);
    assert {Passed} + {Failed, Error} == {Passed, Failed, Error};
    assert {Passed, Failed, Error} + {Skipped} == {Passed, Failed, Error, Skipped};
    assert {Passed, Failed, Error, Skipped} + {Pending} == {Passed, Failed, Skipped, Error, Pending};
  }

  // ---------------------------------------------------------------------
  // Framework detection.

  /** The framework a `package.json` dependency set names: vitest, then
      jest, then mocha. */
  function JsFramework(deps: set<string>): (r: Option<TestFramework>)
    ensures r.Some? <==> "vitest" in deps || "jest" in deps || "mocha" in deps
    ensures r.Some? ==> r.value in {Vitest, Jest, Mocha}
  {
    if "vitest" in deps then Some(Vitest)
    else if "jest" in deps then Some(Jest)
    else if "mocha" in deps then Some(Mocha)
    else None
  }

  /** The marker files of each framework, in the order they are tried. */
  const FrameworkIndicators: seq<(TestFramework, seq<string>)> := [
    (Pytest, ["pytest.ini", "pyproject.toml", "conftest.py", "test_*.py"]),
    (Unittest, ["test_*.py"]),
    (Jest, ["jest.config.js", "jest.config.ts", "jest.config.json"]),
    (Mocha, ["mocha.opts", ".mocharc.js", ".mocharc.json"]),
    (Vitest, ["vitest.config.js", "vitest.config.ts"]),
    (Django, ["manage.py"])]

  /** What trying one marker does: it marks the framework, it does not, or
      it raises. */
  datatype Probe = Hit | Miss | ProbeRaised

  /** Trying `indicator` for `framework` in `dir`: a glob (the table's only
      one is `test_*.py`) needs a matching file; a `manage.py` must mention
      django, and reading it raises where it is a directory or may not be
      read; any other marker must exist. */
  function ProbeIndicator(t: Tree, dir: string, framework: TestFramework, indicator: string): Probe
  {
    if '*' in indicator then (if HasTestFile(t, dir) then Hit else Miss)
    else if Child(dir, indicator) !in t then Miss
    else if framework == Django then
      if Child(dir, "manage.py") !in t then Miss
      else match ReadText(t, Child(dir, "manage.py"))
        case Some(text) => if Contains(Lower(text), "django") then Hit else Miss
        case None => ProbeRaised
    else Hit
  }

  /** Only the django check reads a file, so only it can raise. */
  lemma ProbeRaisesOnlyForDjango(t: Tree, dir: string, framework: TestFramework, indicator: string)
    ensures ProbeIndicator(t, dir, framework, indicator) == ProbeRaised <==>
      framework == Django && '*' !in indicator && Child(dir, indicator) in t && OpenRaises(t, Child(dir, "manage.py"))
  {
  }

  /** The markers of one framework, tried in order until one decides. */
  function ProbeRow(t: Tree, dir: string, framework: TestFramework, indicators: seq<string>): Probe
  {
    if indicators == [] then Miss
    else match ProbeIndicator(t, dir, framework, indicators[0])
      case Miss => ProbeRow(t, dir, framework, indicators[1..])
      case p => p
  }

  /** A row misses when every marker misses, and otherwise ends as its first
      marker that does not miss. */
  lemma {:induction false} ProbeRowSpec(t: Tree, dir: string, framework: TestFramework, indicators: seq<string>)
    ensures ProbeRow(t, dir, framework, indicators) == Miss <==>
      forall k :: 0 <= k < |indicators| ==> ProbeIndicator(t, dir, framework, indicators[k]) == Miss
    ensures ProbeRow(t, dir, framework, indicators) != Miss ==>
      exists k :: 0 <= k < |indicators| && ProbeIndicator(t, dir, framework, indicators[k]) == ProbeRow(t, dir, framework, indicators) &&
        forall j :: 0 <= j < k ==> ProbeIndicator(t, dir, framework, indicators[j]) == Miss
  {
    if indicators != [] {
      ProbeRowSpec(t, dir, framework, indicators[1..]);
      forall k | 0 < k < |indicators|
        ensures indicators[k] == indicators[1..][k - 1]
      {
      }
      if ProbeIndicator(t, dir, framework, indicators[0]) == Miss && ProbeRow(t, dir, framework, indicators) != Miss {
        var k :| 0 <= k < |indicators[1..]| &&
          ProbeIndicator(t, dir, framework, indicators[1..][k]) == ProbeRow(t, dir, framework, indicators) &&
          forall j :: 0 <= j < k ==> ProbeIndicator(t, dir, framework, indicators[1..][j]) == Miss;
        assert indicators[k + 1] == indicators[1..][k];
      }
    }
  }

  /** What the scan over the marker table gives: the first framework with a
      marker present, none, or an exception. */
  datatype Scan = Marked(framework: TestFramework) | Unmarked | ScanRaised

  /** The frameworks of `table` tried in order until one row decides. */
  function ScanIndicators(t: Tree, dir: string, table: seq<(TestFramework, seq<string>)>): Scan
  {
    if table == [] then Unmarked
    else match ProbeRow(t, dir, table[0].0, table[0].1)
      case Hit => Marked(table[0].0)
      case ProbeRaised => ScanRaised
      case Miss => ScanIndicators(t, dir, table[1..])
  }

  /** The rows before `k` all missed. */
  predicate RowsMissed(t: Tree, dir: string, table: seq<(TestFramework, seq<string>)>, k: int)
    requires 0 <= k <= |table|
  {
    forall j :: 0 <= j < k ==> ProbeRow(t, dir, table[j].0, table[j].1) == Miss
  }

  lemma {:induction false} ScanIndicatorsSpec(t: Tree, dir: string, table: seq<(TestFramework, seq<string>)>)
    ensures ScanIndicators(t, dir, table) == Unmarked <==> RowsMissed(t, dir, table, |table|)
    ensures ScanIndicators(t, dir, table).Marked? ==>
      exists k :: 0 <= k < |table| && table[k].0 == ScanIndicators(t, dir, table).framework &&
        ProbeRow(t, dir, table[k].0, table[k].1) == Hit && RowsMissed(t, dir, table, k)
    ensures ScanIndicators(t, dir, table) == ScanRaised ==>
      exists k :: 0 <= k < |table| && ProbeRow(t, dir, table[k].0, table[k].1) == ProbeRaised && RowsMissed(t, dir, table, k)
  {
    if table != [] && ProbeRow(t, dir, table[0].0, table[0].1) == Miss {
      var r := ScanIndicators(t, dir, table);
      ScanIndicatorsSpec(t, dir, table[1..]);
      forall k | 0 < k < |table|
        ensures table[k] == table[1..][k - 1]
      {
      }
      if r != Unmarked {
        var k :| 0 <= k < |table[1..]| && RowsMissed(t, dir, table[1..], k) &&
          ((r.Marked? && table[1..][k].0 == r.framework && ProbeRow(t, dir, table[1..][k].0, table[1..][k].1) == Hit) ||
           (r == ScanRaised && ProbeRow(t, dir, table[1..][k].0, table[1..][k].1) == ProbeRaised));
        assert table[k + 1] == table[1..][k];
      }
    } else if table != [] {
      assert RowsMissed(t, dir, table, 0);
    }
  }

  /** The framework the `package.json` dependencies name; reading it sits in
      a `try` that swallows every error. */
  function PackageFramework(t: Tree, dir: string, parse: JsonParser): Option<TestFramework>
  {
    if Child(dir, "package.json") in t then
      match ReadJson(t, Child(dir, "package.json"), parse)
      case Loaded(Some(pkg)) => JsFramework(pkg.dependencies + pkg.devDependencies)
      case _ => None
    else None
  }

  /** `detect_test_framework`; `None` where it raises. */
  function DetectTestFramework(t: Tree, dir: string, parse: JsonParser): Option<TestFramework>
  {
    var fromPackage := PackageFramework(t, dir, parse);
    if fromPackage.Some? then fromPackage
    else match ScanIndicators(t, dir, FrameworkIndicators)
      case Marked(framework) => Some(framework)
      case ScanRaised => None
      case Unmarked =>
        var pyproject := ReadText(t, Child(dir, "pyproject.toml"));
        if Child(dir, "pyproject.toml") in t && pyproject.Some? &&
           (Contains(pyproject.value, "pytest") || Contains(pyproject.value, "[tool.pytest"))
        then Some(Pytest)
        else if HasTestFile(t, dir) || HasTestFile(t, Child(dir, "tests")) then Some(Pytest)
        else Some(Unknown)
  }

  /** The marker rows before Django's. */
  const MarkerRowsBeforeDjango := 5

  /** Detection raises only where `manage.py` exists but cannot be read,
      and then exactly when no dependency and no marker of another framework
      decided first. */
  lemma DetectRaisesOnManagePy(t: Tree, dir: string, parse: JsonParser)
    ensures DetectTestFramework(t, dir, parse).None? <==>
      PackageFramework(t, dir, parse).None? && RowsMissed(t, dir, FrameworkIndicators, MarkerRowsBeforeDjango) &&
      OpenRaises(t, Child(dir, "manage.py"))
  {
    var table := FrameworkIndicators;
    ScanIndicatorsSpec(t, dir, table);
    forall k | 0 <= k < MarkerRowsBeforeDjango
      ensures ProbeRow(t, dir, table[k].0, table[k].1) != ProbeRaised
    {
      NoDjangoNoRaise(t, dir, table[k].0, table[k].1);
    }
    assert table[5] == (Django, ["manage.py"]);
    if PackageFramework(t, dir, parse).None? && RowsMissed(t, dir, table, MarkerRowsBeforeDjango) {
      ScanPastRows(t, dir, table, MarkerRowsBeforeDjango);
      assert table[5..][0] == table[5] && table[5..][1..] == [];
    }
  }

  /** A row of any framework but Django never raises. */
  lemma {:induction false} NoDjangoNoRaise(t: Tree, dir: string, framework: TestFramework, indicators: seq<string>)
    requires framework != Django
    ensures ProbeRow(t, dir, framework, indicators) != ProbeRaised
  {
    if indicators != [] {
      NoDjangoNoRaise(t, dir, framework, indicators[1..]);
    }
  }

  /** Rows that all missed are skipped. */
  lemma {:induction false} ScanPastRows(t: Tree, dir: string, table: seq<(TestFramework, seq<string>)>, k: nat)
    requires k <= |table| && RowsMissed(t, dir, table, k)
    ensures ScanIndicators(t, dir, table) == ScanIndicators(t, dir, table[k..])
  {
    if k > 0 {
      assert RowsMissed(t, dir, table[1..], k - 1) by {
        forall j | 0 <= j < k - 1 ensures table[1..][j] == table[j + 1] { }
      }
      ScanPastRows(t, dir, table[1..], k - 1);
      assert table[1..][k - 1..] == table[k..];
    }
  }

  /** UNITTEST is never detected: its only marker, `test_*.py`, is also the
      last marker of PYTEST, which is tried first. */
  lemma DetectNeverUnittest(t: Tree, dir: string, parse: JsonParser)
    ensures DetectTestFramework(t, dir, parse) != Some(Unittest)
  {
    var table := FrameworkIndicators;
    if ProbeRow(t, dir, Pytest, table[0].1) == Miss {
      ProbeRowSpec(t, dir, Pytest, table[0].1);
      assert ProbeIndicator(t, dir, Pytest, table[0].1[3]) == Miss;
      assert ProbeRow(t, dir, Unittest, table[1].1) == Miss;
      assert ScanIndicators(t, dir, table) == ScanIndicators(t, dir, table[1..]);
      assert table[1..][0] == table[1];
      assert table[1..][1..] == table[2..];
      ScanNotUnittest(t, dir, table[2..]);
    }
  }

  lemma {:induction false} ScanNotUnittest(t: Tree, dir: string, table: seq<(TestFramework, seq<string>)>)
    requires forall k :: 0 <= k < |table| ==> table[k].0 != Unittest
    ensures ScanIndicators(t, dir, table) != Marked(Unittest)
  {
    if table != [] {
      assert table[0].0 != Unittest;
      ScanNotUnittest(t, dir, table[1..]);
    }
  }

  /** A dependency on vitest wins over jest and mocha; jest wins over mocha. */
  lemma PackageDependenciesDecide(t: Tree, dir: string, parse: JsonParser, pkg: PackageJson)
    requires ReadJson(t, Child(dir, "package.json"), parse) == Loaded(Some(pkg))
    ensures var deps := pkg.dependencies + pkg.devDependencies;
      ("vitest" in deps ==> DetectTestFramework(t, dir, parse) == Some(Vitest)) &&
      ("vitest" !in deps && "jest" in deps ==> DetectTestFramework(t, dir, parse) == Some(Jest)) &&
      ("vitest" !in deps && "jest" !in deps && "mocha" in deps ==> DetectTestFramework(t, dir, parse) == Some(Mocha))
  {
  }

  /** A `test_*.py` file or a pytest marker gives PYTEST unless a dependency
      names a JS framework; a test file under `tests`, a JS test dependency
      or a pytest marker rules out UNKNOWN. */
  lemma FoundMeansKnown(t: Tree, dir: string, parse: JsonParser)
    ensures PackageFramework(t, dir, parse).None? &&
            (HasTestFile(t, dir) || Child(dir, "pytest.ini") in t || Child(dir, "pyproject.toml") in t ||
             Child(dir, "conftest.py") in t)
            ==> DetectTestFramework(t, dir, parse) == Some(Pytest)
    ensures HasTestFile(t, dir) || HasTestFile(t, Child(dir, "tests")) ||
            Child(dir, "pytest.ini") in t || Child(dir, "pyproject.toml") in t || Child(dir, "conftest.py") in t
            ==> DetectTestFramework(t, dir, parse) != Some(Unknown)
    ensures forall pkg ::
      (ReadJson(t, Child(dir, "package.json"), parse) == Loaded(Some(pkg)) && JsFramework(pkg.dependencies + pkg.devDependencies).Some?)
      ==> DetectTestFramework(t, dir, parse).Some? && DetectTestFramework(t, dir, parse) != Some(Unknown)
  {
    var table := FrameworkIndicators;
    ScanIndicatorsSpec(t, dir, table);
    assert forall k :: 0 <= k < |table| ==> table[k].0 != Unknown;
    var markers := table[0].1;
    if HasTestFile(t, dir) || Child(dir, "pytest.ini") in t || Child(dir, "pyproject.toml") in t || Child(dir, "conftest.py") in t {
      var k := if Child(dir, "pytest.ini") in t then 0 else if Child(dir, "pyproject.toml") in t then 1
               else if Child(dir, "conftest.py") in t then 2 else 3;
      assert ProbeIndicator(t, dir, Pytest, markers[k]) == Hit;
      ProbeRowSpec(t, dir, Pytest, markers);
      NoDjangoNoRaise(t, dir, Pytest, markers);
      assert ScanIndicators(t, dir, table) == Marked(Pytest);
    }
  }

  // ---------------------------------------------------------------------
  // Parsers.

  /** A capture of a `finditer` match, `""` when absent. */
  function GroupAt(m: seq<string>, i: nat): string
  {
    if i < |m| then m[i] else ""
  }

  /** The status words of a pytest line; anything else is an ERROR. */
  function StatusOf(word: string): TestStatus
  {
    if word == "PASSED" then Passed
    else if word == "FAILED" then Failed
    else if word == "SKIPPED" then Skipped
    else Error
  }

  function PytestCase(m: seq<string>): TestCase
  {
    TestCase(GroupAt(m, 0), StatusOf(GroupAt(m, 1)), None, None, None)
  }

  /** `int(m.group(i) or 0)` of a numeric match. */
  function Count(groups: seq<Option<nat>>, i: nat): nat
  {
    OrZero(Group(groups, i))
  }

  const PytestSummary := Re("(\\d+)\\s+passed(?:.*?(\\d+)\\s+failed)?(?:.*?(\\d+)\\s+skipped)?(?:.*?(\\d+)\\s+error)?")
  const PytestTestLine := ReM("^([\\w/\\.]+::[\\w_]+)\\s+(PASSED|FAILED|SKIPPED|ERROR)")

  /** What `parse_pytest_output` promises of its result. */
  predicate PytestParsed(re: Regex, output: string, result: TestResult)
  {
    result.framework == Pytest && result.rawOutput == "" && result.exitCode == 0 &&
    result.totalTests == result.passed + result.failed + result.skipped + result.errors &&
    (result.success <==> re.numbers(PytestSummary, output).Some? && result.failed == 0 && result.errors == 0) &&
    (match re.numbers(PytestSummary, output)
      case Some(g) => result.passed == Count(g, 0) && result.failed == Count(g, 1) &&
                      result.skipped == Count(g, 2) && result.errors == Count(g, 3)
      case None => result.passed == 0 && result.failed == 0 && result.skipped == 0 && result.errors == 0) &&
    (var ms := re.findIter(PytestTestLine, output);
      (ms == [] ==> result.suites == []) &&
      (ms != [] ==> |result.suites| == 1 && result.suites[0].name == "pytest" &&
                    |result.suites[0].tests| == |ms| &&
                    forall k :: 0 <= k < |ms| ==> result.suites[0].tests[k] == PytestCase(ms[k])))
  }

  method ParsePytestOutput(re: Regex, output: string) returns (result: TestResult)
    ensures PytestParsed(re, output, result)
  {
    result := EmptyResult(Pytest);
    var summary := re.numbers(PytestSummary, output);
    if summary.Some? {
      var g := summary.value;
      result := result.(passed := Count(g, 0), failed := Count(g, 1), skipped := Count(g, 2), errors := Count(g, 3));
      result := result.(totalTests := result.passed + result.failed + result.skipped + result.errors);
      result := result.(success := result.failed == 0 && result.errors == 0);
    }
    var ms := re.findIter(PytestTestLine, output);
    var tests: seq<TestCase> := [];
    var i := 0;
    while i < |ms|
      invariant 0 <= i <= |ms|
      invariant |tests| == i
      invariant forall k :: 0 <= k < i ==> tests[k] == PytestCase(ms[k])
    {
      tests := tests + [PytestCase(ms[i])];
      i := i + 1;
    }
    if tests != [] {
      result := result.(suites := result.suites + [TestSuite("pytest", tests, None)]);
    }
  }

  const JestSummary := Re("Tests:\\s+(?:(\\d+)\\s+failed,\\s*)?(?:(\\d+)\\s+skipped,\\s*)?(?:(\\d+)\\s+passed,\\s*)?(\\d+)\\s+total")
  const JestSuiteLine := Re("(PASS|FAIL)\\s+([^\\n]+)")

  function JestSuite(m: seq<string>): TestSuite
  {
    TestSuite(Strip(GroupAt(m, 1)), [], Some(Strip(GroupAt(m, 1))))
  }

  /** What `parse_jest_output` promises of its result. */
  predicate JestParsed(re: Regex, output: string, result: TestResult)
  {
    result.framework == Jest && result.errors == 0 && result.rawOutput == "" && result.exitCode == 0 &&
    (result.success <==> re.numbers(JestSummary, output).Some? && result.failed == 0) &&
    (match re.numbers(JestSummary, output)
      case Some(g) => result.failed == Count(g, 0) && result.skipped == Count(g, 1) &&
                      result.passed == Count(g, 2) && result.totalTests == Count(g, 3)
      case None => result.passed == 0 && result.failed == 0 && result.skipped == 0 && result.totalTests == 0) &&
    (var ms := re.findIter(JestSuiteLine, output);
      |result.suites| == |ms| && forall k :: 0 <= k < |ms| ==> result.suites[k] == JestSuite(ms[k]))
  }

  /** The total is read from "N total", not summed from the other counts. */
  method ParseJestOutput(re: Regex, output: string) returns (result: TestResult)
    ensures JestParsed(re, output, result)
  {
    result := EmptyResult(Jest);
    var summary := re.numbers(JestSummary, output);
    if summary.Some? {
      var g := summary.value;
      result := result.(failed := Count(g, 0), skipped := Count(g, 1), passed := Count(g, 2), totalTests := Count(g, 3));
      result := result.(success := result.failed == 0);
    }
    var ms := re.findIter(JestSuiteLine, output);
    var i := 0;
    while i < |ms|
      invariant 0 <= i <= |ms|
      invariant |result.suites| == i
      invariant forall k :: 0 <= k < i ==> result.suites[k] == JestSuite(ms[k])
      invariant result.framework == Jest && result.errors == 0 && result.rawOutput == "" && result.exitCode == 0
      invariant result.success <==> summary.Some? && result.failed == 0
      invariant match summary
        case Some(g) => result.failed == Count(g, 0) && result.skipped == Count(g, 1) &&
                        result.passed == Count(g, 2) && result.totalTests == Count(g, 3)
        case None => result.passed == 0 && result.failed == 0 && result.skipped == 0 && result.totalTests == 0
    {
      result := result.(suites := result.suites + [JestSuite(ms[i])]);
      i := i + 1;
    }
  }

  /** The first number `p` captures in `output`, 0 when it does not match. */
  function CountOf(re: Regex, p: Pattern, output: string): nat
  {
    match re.numbers(p, output)
    case Some(g) => Count(g, 0)
    case None => 0
  }

  const MochaPassing := Re("(\\d+)\\s+passing")
  const MochaFailing := Re("(\\d+)\\s+failing")
  const MochaPending := Re("(\\d+)\\s+pending")

  /** What `parse_mocha_output` promises of its result. */
  predicate MochaParsed(re: Regex, output: string, result: TestResult)
  {
    result.framework == Mocha && result.errors == 0 && result.suites == [] &&
    result.passed == CountOf(re, MochaPassing, output) &&
    result.failed == CountOf(re, MochaFailing, output) &&
    result.skipped == CountOf(re, MochaPending, output) &&
    result.totalTests == result.passed + result.failed + result.skipped &&
    (result.success <==> result.failed == 0)
  }

  method ParseMochaOutput(re: Regex, output: string) returns (result: TestResult)
    ensures MochaParsed(re, output, result)
  {
    result := EmptyResult(Mocha);
    result := result.(passed := CountOf(re, MochaPassing, output));
    result := result.(failed := CountOf(re, MochaFailing, output));
    result := result.(skipped := CountOf(re, MochaPending, output));
    result := result.(totalTests := result.passed + result.failed + result.skipped);
    result := result.(success := result.failed == 0);
  }

  const VitestSummary := Re("Tests\\s+(\\d+)\\s+failed\\s*\\|?\\s*(\\d+)\\s+passed")
  const VitestPassed := Re("(\\d+)\\s+passed")
  const VitestFailed := Re("(\\d+)\\s+failed")

  /** What `parse_vitest_output` promises of its result. */
  predicate VitestParsed(re: Regex, output: string, result: TestResult)
  {
    result.framework == Vitest && result.skipped == 0 && result.errors == 0 && result.suites == [] &&
    result.totalTests == result.passed + result.failed &&
    (result.success <==> result.failed == 0) &&
    (match re.numbers(VitestSummary, output)
      case Some(g) => result.failed == Count(g, 0) && result.passed == Count(g, 1)
      case None => result.passed == CountOf(re, VitestPassed, output) && result.failed == CountOf(re, VitestFailed, output))
  }

  /** Both the summary form and the fallback form sum passed and failed. */
  method ParseVitestOutput(re: Regex, output: string) returns (result: TestResult)
    ensures VitestParsed(re, output, result)
  {
    result := EmptyResult(Vitest);
    var summary := re.numbers(VitestSummary, output);
    if summary.Some? {
      var g := summary.value;
      result := result.(failed := Count(g, 0), passed := Count(g, 1));
      result := result.(totalTests := result.passed + result.failed);
      result := result.(success := result.failed == 0);
    } else {
      var passMatch := re.numbers(VitestPassed, output);
      var failMatch := re.numbers(VitestFailed, output);
      if passMatch.Some? {
        result := result.(passed := Count(passMatch.value, 0));
      }
      if failMatch.Some? {
        result := result.(failed := Count(failMatch.value, 0));
      }
      result := result.(totalTests := result.passed + result.failed);
      result := result.(success := result.failed == 0);
    }
  }

  const UnittestRan := Re("Ran (\\d+) tests? in ([\\d.]+)s")
  const UnittestOk := ReM("^OK$")
  const UnittestFailed := Re("FAILED \\((?:failures=(\\d+))?(?:,?\\s*errors=(\\d+))?")

  /** What `parse_unittest_output` promises of its result. */
  predicate UnittestParsed(re: Regex, output: string, result: TestResult)
  {
    result.framework == Unittest && result.skipped == 0 && result.suites == [] &&
    result.totalTests == CountOf(re, UnittestRan, output) &&
    (re.search(UnittestOk, output) ==>
      result.success && result.passed == result.totalTests && result.failed == 0 && result.errors == 0) &&
    (!re.search(UnittestOk, output) ==> (!result.success &&
      match re.numbers(UnittestFailed, output)
      case Some(g) => result.failed == Count(g, 0) && result.errors == Count(g, 1) &&
                      result.passed == result.totalTests - result.failed - result.errors
      case None => result.passed == 0 && result.failed == 0 && result.errors == 0))
  }

  /** An "OK" line means every test that ran passed; otherwise a
      "FAILED (...)" line gives `passed = total - failures - errors`, which
      goes negative when the counts disagree. */
  method ParseUnittestOutput(re: Regex, output: string) returns (result: TestResult)
    ensures UnittestParsed(re, output, result)
  {
    result := EmptyResult(Unittest);
    var ran := re.numbers(UnittestRan, output);
    if ran.Some? {
      result := result.(totalTests := Count(ran.value, 0));
    }
    if re.search(UnittestOk, output) {
      result := result.(success := true);
      result := result.(passed := result.totalTests);
    } else {
      var failMatch := re.numbers(UnittestFailed, output);
      if failMatch.Some? {
        result := result.(failed := Count(failMatch.value, 0));
        result := result.(errors := Count(failMatch.value, 1));
        result := result.(passed := result.totalTests - result.failed - result.errors);
      }
    }
  }

  /** Django's runner prints unittest's summary: the result is unittest's,
      under Django's name. */
  method ParseDjangoOutput(re: Regex, output: string) returns (result: TestResult)
    ensures result.framework == Django && UnittestParsed(re, output, result.(framework := Unittest))
  {
    result := ParseUnittestOutput(re, output);
    result := result.(framework := Django);
  }

  const GenericPassPatterns := [ReI("(\\d+)\\s+(?:tests?\\s+)?pass(?:ed|ing)?"), ReI("passed:\\s*(\\d+)")]
  const GenericFailPatterns := [ReI("(\\d+)\\s+(?:tests?\\s+)?fail(?:ed|ing)?"), ReI("failed:\\s*(\\d+)")]

  /** The number captured by the first pattern of `ps` that matches, 0 if
      none does. */
  method FirstCount(re: Regex, ps: seq<Pattern>, output: string) returns (n: nat)
    ensures n == OrZero(FirstNumber(re, ps, output))
  {
    n := 0;
    var i := 0;
    while i < |ps|
      invariant 0 <= i <= |ps|
      invariant n == 0
      invariant FirstNumber(re, ps, output) == FirstNumber(re, ps[i..], output)
    {
      assert ps[i..][1..] == ps[i + 1..];
      var m := re.numbers(ps[i], output);
      if m.Some? {
        n := Count(m.value, 0);
        return;
      }
      i := i + 1;
    }
  }

  /** What `parse_generic_output` promises of its result. */
  predicate GenericParsed(re: Regex, output: string, result: TestResult)
  {
    result.framework == Unknown && result.skipped == 0 && result.errors == 0 && result.suites == [] &&
    result.passed == OrZero(FirstNumber(re, GenericPassPatterns, output)) &&
    result.failed == OrZero(FirstNumber(re, GenericFailPatterns, output)) &&
    result.totalTests == result.passed + result.failed &&
    (result.success <==> result.failed == 0 && result.passed > 0)
  }

  /** Success needs no failure and at least one pass. */
  method ParseGenericOutput(re: Regex, output: string) returns (result: TestResult)
    ensures GenericParsed(re, output, result)
  {
    result := EmptyResult(Unknown);
    var passed := FirstCount(re, GenericPassPatterns, output);
    var failed := FirstCount(re, GenericFailPatterns, output);
    result := result.(passed := passed, failed := failed);
    result := result.(totalTests := result.passed + result.failed);
    result := result.(success := result.failed == 0 && result.passed > 0);
  }

  /** What the parser of `framework` promises of its result. */
  predicate ParsedBy(re: Regex, output: string, framework: TestFramework, result: TestResult)
  {
    match framework
    case Pytest => PytestParsed(re, output, result)
    case Jest => JestParsed(re, output, result)
    case Mocha => MochaParsed(re, output, result)
    case Vitest => VitestParsed(re, output, result)
    case Unittest => UnittestParsed(re, output, result)
    case Django => result.framework == Django && UnittestParsed(re, output, result.(framework := Unittest))
    case Unknown => GenericParsed(re, output, result)
  }

  /** `parse_test_results`: each framework's parser, the generic one for
      UNKNOWN. The result always names the framework it was asked for. */
  method ParseTestResults(re: Regex, output: string, framework: TestFramework) returns (result: TestResult)
    ensures result.framework == framework && ParsedBy(re, output, framework, result)
    ensures framework in {Pytest, Mocha, Vitest, Unknown} ==>
      result.totalTests == result.passed + result.failed + result.skipped + result.errors
  {
    match framework {
      case Pytest => result := ParsePytestOutput(re, output);
      case Jest => result := ParseJestOutput(re, output);
      case Mocha => result := ParseMochaOutput(re, output);
      case Vitest => result := ParseVitestOutput(re, output);
      case Unittest => result := ParseUnittestOutput(re, output);
      case Django => result := ParseDjangoOutput(re, output);
      case Unknown => result := ParseGenericOutput(re, output);
    }
  }

  // ---------------------------------------------------------------------
  // Running.

  /** What running the test command did. */
  datatype Execution =
    | Completed(stdout: string, stderr: string, returnCode: int)
    | TimedOut
    | Crashed(error: string)

  /** The default command of each framework, `""` for UNKNOWN. */
  function DefaultCommand(framework: TestFramework): string
  {
    match framework
    case Pytest => "pytest -v --tb=short"
    case Unittest => "python -m unittest discover -v"
    case Jest => "npm test -- --verbose"
    case Mocha => "npm test"
    case Vitest => "npm test"
    case Django => "python manage.py test -v 2"
    case Unknown => ""
  }

  const TruncationMarker := "\n... (output truncated)"

  /** Output over `maxSize` characters keeps its first `maxSize` and a marker. */
  function Truncate(output: string, maxSize: nat): (r: string)
    ensures |output| <= maxSize ==> r == output
    ensures |output| > maxSize ==> |r| == maxSize + |TruncationMarker| && r[..maxSize] == output[..maxSize] &&
                                    EndsWith(r, TruncationMarker)
  {
    if |output| > maxSize then output[..maxSize] + TruncationMarker else output
  }

  class TestExecutor {
    const timeout: nat
    const maxOutputSize: nat

    constructor(timeout: nat, maxOutputSize: nat)
      ensures this.timeout == timeout && this.maxOutputSize == maxOutputSize
    {
      this.timeout := timeout;
      this.maxOutputSize := maxOutputSize;
    }

    /** `run_tests`: the framework and command are resolved first; detecting
        the framework can raise, giving `None`; without a command nothing
        runs. A completed run is parsed by the framework's parser, and its
        verdict is the exit code alone. */
    method RunTests(re: Regex, t: Tree, dir: string, parse: JsonParser, command: Option<string>,
                    framework: Option<TestFramework>, run: string -> Execution)
      returns (result: Option<TestResult>)
      ensures var detected := if framework.Some? then framework else DetectTestFramework(t, dir, parse);
        result.None? <==> detected.None?
      ensures result.Some? ==>
        var fw := if framework.Some? then framework.value else DetectTestFramework(t, dir, parse).value;
        var cmd := if command.Some? then command.value else DefaultCommand(fw);
        var r := result.value;
        r.framework == fw &&
        (cmd == [] ==>
          r == EmptyResult(fw).(rawOutput := "No test command available for detected framework", exitCode := -1)) &&
        (cmd != [] ==> (r.command == cmd &&
          match run(cmd)
          case Completed(out, err, code) =>
            var output := Truncate(out + "\n" + err, maxOutputSize);
            exists parsed :: ParsedBy(re, output, fw, parsed) && parsed.framework == fw &&
              r == parsed.(rawOutput := output, command := cmd, exitCode := code, success := code == 0)
          case TimedOut =>
            r == EmptyResult(fw).(rawOutput := "Test execution timed out after " + NatToString(timeout) + " seconds",
                                  command := cmd, exitCode := -1)
          case Crashed(e) =>
            r == EmptyResult(fw).(rawOutput := "Error executing tests: " + e, command := cmd, exitCode := -1)))
    {
      var detected := if framework.Some? then framework else DetectTestFramework(t, dir, parse);
      if detected.None? {
        return None;
      }
      var fw := detected.value;
      var cmd := if command.Some? then command.value else DefaultCommand(fw);
      if cmd == [] {
        return Some(EmptyResult(fw).(rawOutput := "No test command available for detected framework", exitCode := -1));
      }
      var r: TestResult;
      match run(cmd) {
        case Completed(out, err, code) =>
          var output := out + "\n" + err;
          if |output| > maxOutputSize {
            output := output[..maxOutputSize] + TruncationMarker;
          }
          var parsed := ParseTestResults(re, output, fw);
          r := parsed.(rawOutput := output, command := cmd, exitCode := code);
          r := r.(success := code == 0);
          assert r == parsed.(rawOutput := output, command := cmd, exitCode := code, success := code == 0);
        case TimedOut =>
          r := EmptyResult(fw).(rawOutput := "Test execution timed out after " + NatToString(timeout) + " seconds",
                                command := cmd, exitCode := -1);
        case Crashed(e) =>
          r := EmptyResult(fw).(rawOutput := "Error executing tests: " + e, command := cmd, exitCode := -1);
      }
      result := Some(r);
    }
  }
}
