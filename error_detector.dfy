/** Line-oriented error classification (ai_orchestrator/execution/error_detector.py).

    Every line of the combined output is matched against the category
    table in table order; a matching line becomes a `DetectedError` carrying
    its stripped text, a context window, a location, a stack trace and the
    category's canned suggestions. The list is then deduplicated on the
    message with every digit run replaced by `N`. */
module ErrorDetector {
  import opened Text

  datatype ErrorCategory =
    | Syntax | Runtime | Dependency | Import | Type | Permission | Network
    | FileNotFound | Configuration | Timeout | Memory | PortInUse | TestFailure
    | SwiftCompilation | CodeSigning | Simulator | XcodeBuild | SwiftUIPreview
    | Unknown

  datatype DetectedError = DetectedError(
    category: ErrorCategory,
    message: string,
    lineNumber: Option<int>,
    filePath: Option<string>,
    stackTrace: Option<string>,
    rawOutput: Option<string>,
    severity: string,
    suggestedFixes: seq<string>,
    contextLines: seq<string>)

  /** The default number of context lines on each side of a matched line. */
  const DefaultMaxContextLines: nat := 5

  /** The pattern table, one row per category in the table's order (UNKNOWN
      has no row); every pattern is searched case-insensitively. */
  const ErrorPatterns: seq<(ErrorCategory, seq<Pattern>)> := [
    (Syntax, [ReI("SyntaxError:"), ReI("IndentationError:"), ReI("TabError:"),
      ReI("Unexpected token"), ReI("Parsing error"), ReI("Invalid syntax")]),
    (Runtime, [ReI("RuntimeError:"), ReI("UnhandledPromiseRejection"), ReI("Uncaught Error:"),
      ReI("at Object\\.<anonymous>"), ReI("RangeError:")]),
    (Dependency, [ReI("npm ERR! missing:"), ReI("npm ERR! peer dep"),
      ReI("Could not resolve dependencies"), ReI("ERESOLVE unable to resolve"),
      ReI("Package .* not found"), ReI("No matching distribution found"),
      ReI("pip install")]),
    (Import, [ReI("ModuleNotFoundError:"), ReI("ImportError:"), ReI("Cannot find module"),
      ReI("Module not found:"), ReI("No module named")]),
    (Type, [ReI("TypeError:"), ReI("Expected .* but got"), ReI("Type '.*' is not assignable"),
      ReI("is not a function")]),
    (Permission, [ReI("Permission denied"), ReI("EACCES:"), ReI("PermissionError:"),
      ReI("Access denied")]),
    (Network, [ReI("ECONNREFUSED"), ReI("ETIMEDOUT"), ReI("ENOTFOUND"), ReI("Network error"),
      ReI("Connection refused"), ReI("ConnectionError:")]),
    (FileNotFound, [ReI("ENOENT:"), ReI("FileNotFoundError:"), ReI("No such file or directory"),
      ReI("Cannot find path")]),
    (Configuration, [ReI("Configuration error"), ReI("Invalid configuration"),
      ReI("Missing required"), ReI("\\.env.*not found"),
      ReI("Environment variable .* not set")]),
    (Timeout, [ReI("Timeout"), ReI("ETIMEDOUT"), ReI("TimeoutError:"), ReI("Task timed out")]),
    (Memory, [ReI("OutOfMemory"), ReI("MemoryError:"), ReI("heap out of memory"),
      ReI("JavaScript heap"), ReI("ENOMEM")]),
    (PortInUse, [ReI("EADDRINUSE:"), ReI("Address already in use"),
      ReI("port.*already in use"), ReI("bind.*address already in use")]),
    (TestFailure, [ReI("FAILED"), ReI("AssertionError:"), ReI("test.*failed"),
      ReI("\\d+ failing"), ReI("pytest.*failed")]),
    (SwiftCompilation, [ReI("error:.*\\.swift:\\d+:\\d+:"), ReI("cannot find .* in scope"),
      ReI("type .* has no member"), ReI("missing argument for parameter"),
      ReI("cannot convert value of type"), ReI("ambiguous use of"),
      ReI("value of type .* has no member"), ReI("expected .* in .* declaration"),
      ReI("consecutive declarations on a line"), ReI("use of undeclared type"),
      ReI("cannot assign to property"), ReI("initializer .* cannot be used"),
      ReI("invalid redeclaration of"), ReI("use of unresolved identifier"),
      ReI("No such module"), ReI("could not find module"),
      ReI("Missing package product")]),
    (CodeSigning, [ReI("Code Signing Error:"), ReI("Signing for .* requires a development team"),
      ReI("No signing certificate"), ReI("Provisioning profile .* doesn't match"),
      ReI("No profiles for .* were found"), ReI("Code signing is required"),
      ReI("Xcode couldn't find any iOS App Development"),
      ReI("requires a provisioning profile"), ReI("CSSMERR_TP_NOT_TRUSTED")]),
    (Simulator, [ReI("Unable to boot device"), ReI("Simulator .* not available"),
      ReI("Failed to boot simulator"), ReI("Device is not available"),
      ReI("The requested device could not be found"), ReI("xcrun: error: unable to find"),
      ReI("simctl: error:"), ReI("CoreSimulator.*error"),
      ReI("No simulator runtime paired"), ReI("Simulator service did not respond")]),
    (XcodeBuild, [ReI("xcodebuild: error:"), ReI("Build Failed"), ReI("Compiling .* failed"),
      ReI("Linking .* failed"), ReI("Command .* failed with exit code"),
      ReI("target .* not found"), ReI("scheme .* not found"),
      ReI("workspace .* not found"), ReI("project .* not found"),
      ReI("The file .* couldn't be opened"), ReI("clang: error:"), ReI("ld: error:"),
      ReI("Swift Compiler Error"), ReI("\\*\\* BUILD FAILED \\*\\*")]),
    (SwiftUIPreview, [ReI("Preview Crashed"), ReI("Cannot preview in this file"),
      ReI("PreviewProvider .* not found"), ReI("Previews are limited to 15 seconds"),
      ReI("Preview provider timed out"), ReI("Failed to build .* for previewing"),
      ReI("Remote preview service.*terminated")])
  ]

  /** An `ErrorDetector` instance: the class's pattern and suggestion tables and the
      `max_context_lines` given to its constructor. */
  datatype Detector = Detector(
    patterns: seq<(ErrorCategory, seq<Pattern>)>,
    fixes: ErrorCategory -> seq<string>,
    maxContextLines: nat)

  /** No row of the table is labelled UNKNOWN: UNKNOWN is what a line that
      matches no row gets. */
  predicate ValidDetector(d: Detector)
  {
    forall k :: 0 <= k < |d.patterns| ==> d.patterns[k].0 != Unknown
  }

  /** `ErrorDetector()`, with the default context size. */
  const DefaultDetector := Detector(ErrorPatterns, FixSuggestions, DefaultMaxContextLines)

  lemma DefaultDetectorValid()
    ensures ValidDetector(DefaultDetector) && DefaultDetector.maxContextLines == 5
  {
  }

  /** The canned suggestions per category; RUNTIME, TIMEOUT and UNKNOWN have none. */
  function FixSuggestions(c: ErrorCategory): seq<string>
  {
    match c
    case Syntax => ["Check the indicated line for syntax errors",
                    "Verify proper indentation and bracket matching",
                    "Look for missing colons, commas, or parentheses"]
    case Dependency => ["Run 'npm install' or 'pip install -r requirements.txt'",
                        "Check if the package name is correct",
                        "Try clearing node_modules and reinstalling",
                        "Check for version conflicts in dependencies"]
    case Import => ["Verify the module is installed", "Check the import path is correct",
                    "Ensure the file exists at the expected location"]
    case Type => ["Check the types of variables being used",
                  "Verify function arguments match expected types",
                  "Look for undefined or null values"]
    case Permission => ["Check file/directory permissions", "Run with appropriate privileges if needed",
                        "Ensure the user has write access"]
    case Network => ["Check if the server/service is running", "Verify the URL and port are correct",
                     "Check network connectivity"]
    case FileNotFound => ["Verify the file path is correct", "Check if the file exists",
                          "Ensure the working directory is correct"]
    case Configuration => ["Check if .env file exists with required variables",
                           "Verify all configuration files are present",
                           "Review configuration documentation"]
    case PortInUse => ["Kill the process using the port", "Use a different port",
                       "Check for existing instances of the application"]
    case Memory => ["Increase memory allocation", "Optimize code to use less memory",
                    "Check for memory leaks"]
    case TestFailure => ["Review the failing test assertions",
                         "Check if test fixtures are set up correctly",
                         "Verify expected vs actual values"]
    case SwiftCompilation => ["Check the Swift syntax at the indicated file and line",
                              "Verify all imports are correctly declared",
                              "Check that type names and property names are spelled correctly",
                              "Ensure proper use of optionals and unwrapping",
                              "Run 'swift package resolve' to update dependencies"]
    case CodeSigning => ["For simulator builds, add CODE_SIGN_IDENTITY=- CODE_SIGNING_REQUIRED=NO to build command",
                         "Open Xcode and set signing to 'Automatically manage signing'",
                         "Add a development team in Xcode project settings",
                         "For CI/CD, ensure certificates are installed in the keychain"]
    case Simulator => ["List available simulators: xcrun simctl list devices",
                       "Boot a different simulator version",
                       "Reset simulator: xcrun simctl erase <device-udid>",
                       "Restart Simulator.app: killall Simulator && open -a Simulator",
                       "Update Xcode to get newer simulator runtimes"]
    case XcodeBuild => ["Clean build folder: xcodebuild clean",
                        "Delete DerivedData: rm -rf ~/Library/Developer/Xcode/DerivedData",
                        "Verify scheme exists: xcodebuild -list",
                        "Check if project file is corrupted",
                        "Ensure Xcode command line tools are installed: xcode-select --install"]
    case SwiftUIPreview => ["Restart Xcode to refresh previews",
                            "Check that PreviewProvider conforms correctly",
                            "Simplify the preview code to identify issues",
                            "Clean build folder and rebuild",
                            "Ensure the preview device is available in Xcode"]
    case Runtime => []
    case Timeout => []
    case Unknown => []
  }

  // ---------------------------------------------------------------------
  // Classification of one line
  // ---------------------------------------------------------------------

  /** Some pattern of `ps` is found in `line`. */
  predicate AnyMatch(re: Regex, ps: seq<Pattern>, line: string)
  {
    exists p :: p in ps && re.search(p, line)
  }

  /** The first pattern of `ps` found in `line`, scanning in order. */
  function FirstPatternMatch(re: Regex, ps: seq<Pattern>, line: string): (r: bool)
    ensures r <==> AnyMatch(re, ps, line)
  {
    if ps == [] then false
    else if re.search(ps[0], line) then true
    else
      assert forall p :: p in ps[1..] <==> p in ps && (p != ps[0] || p in ps[1..]);
      FirstPatternMatch(re, ps[1..], line)
  }

  /** The category of the first row of `table` with a pattern found in `line`. */
  function FirstCategory(re: Regex, table: seq<(ErrorCategory, seq<Pattern>)>, line: string): ErrorCategory
  {
    if table == [] then Unknown
    else if FirstPatternMatch(re, table[0].1, line) then table[0].0
    else FirstCategory(re, table[1..], line)
  }

  lemma {:induction false} FirstCategorySpec(re: Regex, table: seq<(ErrorCategory, seq<Pattern>)>, line: string)
    requires forall k :: 0 <= k < |table| ==> table[k].0 != Unknown
    ensures var r := FirstCategory(re, table, line);
      (r == Unknown <==> forall k :: 0 <= k < |table| ==> !AnyMatch(re, table[k].1, line)) &&
      (r != Unknown ==>
        exists k :: 0 <= k < |table| && table[k].0 == r && AnyMatch(re, table[k].1, line) &&
          forall j :: 0 <= j < k ==> !AnyMatch(re, table[j].1, line))
  {
    if table != [] {
      var rest := table[1..];
      FirstCategorySpec(re, rest, line);
      var r := FirstCategory(re, table, line);
      if !AnyMatch(re, table[0].1, line) {
        assert forall k :: 1 <= k < |table| ==> table[k] == rest[k - 1];
        if r != Unknown {
          var k :| 0 <= k < |rest| && rest[k].0 == r && AnyMatch(re, rest[k].1, line) &&
            forall j :: 0 <= j < k ==> !AnyMatch(re, rest[j].1, line);
          assert table[k + 1] == rest[k];
        }
      }
    }
  }

  /** `_categorize_line`: the category of the first row of the pattern table
      that has a pattern found in the line. */
  function CategorizeLine(re: Regex, d: Detector, line: string): ErrorCategory
  {
    FirstCategory(re, d.patterns, line)
  }

  /** `_categorize_line` answers UNKNOWN exactly when no pattern of the table
      is found in the line, and otherwise the category of the first row, in
      table order, that has a pattern found in it. */
  lemma CategorizeLineFirstMatch(re: Regex, d: Detector, line: string)
    requires ValidDetector(d)
    ensures CategorizeLine(re, d, line) == Unknown <==>
              forall k :: 0 <= k < |d.patterns| ==> !AnyMatch(re, d.patterns[k].1, line)
    ensures CategorizeLine(re, d, line) != Unknown ==>
      exists k :: 0 <= k < |d.patterns| && d.patterns[k].0 == CategorizeLine(re, d, line) &&
        AnyMatch(re, d.patterns[k].1, line) &&
        forall j :: 0 <= j < k ==> !AnyMatch(re, d.patterns[j].1, line)
  {
    FirstCategorySpec(re, d.patterns, line);
  }

  /** A line that matches an IMPORT pattern and no pattern of the three rows
      before IMPORT is classified IMPORT — the case of
      "ModuleNotFoundError: No module named 'requests'". */
  lemma ImportLineIsImport(re: Regex, line: string)
    requires re.search(ReI("ModuleNotFoundError:"), line)
    requires forall k :: 0 <= k < 3 ==> !AnyMatch(re, ErrorPatterns[k].1, line)
    ensures CategorizeLine(re, DefaultDetector, line) == Import
  {
    var t := ErrorPatterns;
    assert !AnyMatch(re, t[0].1, line) && !AnyMatch(re, t[1].1, line) && !AnyMatch(re, t[2].1, line);
    assert t[1..][0] == t[1] && t[1..][1..][0] == t[2];
    assert t[1..][1..][1..][0] == (Import, t[3].1) && t[3].1[0] == ReI("ModuleNotFoundError:");
    assert FirstPatternMatch(re, t[3].1, line);
    assert FirstCategory(re, t[1..][1..][1..], line) == Import;
    assert FirstCategory(re, t[1..][1..], line) == Import;
    assert FirstCategory(re, t[1..], line) == Import;
  }

  // ---------------------------------------------------------------------
  // Context window and location
  // ---------------------------------------------------------------------

  function Max(a: int, b: int): int { if a >= b then a else b }
  function Min(a: int, b: int): int { if a <= b then a else b }

  /** The context of line `i`: `lines[max(0, i-k) : min(n, i+k+1)]`. It holds
      line `i` at offset `min(i, k)` and has at most `2k+1` lines. */
  function ContextWindow(lines: seq<string>, i: nat, k: nat): (r: seq<string>)
    requires i < |lines|
    ensures |r| == Min(|lines|, i + k + 1) - Max(0, i - k) <= 2 * k + 1
    ensures Min(i, k) < |r| && r[Min(i, k)] == lines[i]
    ensures forall j :: 0 <= j < |r| ==> r[j] == lines[Max(0, i - k) + j]
  {
    lines[Max(0, i - k)..Min(|lines|, i + k + 1)]
  }

  /** The location patterns of `_extract_location`. */
  const PythonFrame := Re("File \"([^\"]+)\", line (\\d+)")
  const JsFrame := Re("at (?:[^\\s]+\\s+)?\\(?([\\/\\w\\._-]+\\.\\w+):(\\d+)(?::\\d+)?\\)?")
  const GenericLocation := Re("([\\w\\.\\/\\\\-]+\\.[\\w]+):(\\d+)")

  /** `group(1)` and `int(group(2))` of the first match of a location pattern. */
  type LocationSearch = (Pattern, string) -> Option<(string, nat)>

  /** The first of `nearby` (in order) that holds a Python frame. */
  function FirstPythonFrame(loc: LocationSearch, nearby: seq<string>): (r: Option<(string, nat)>)
    ensures r.None? <==> forall j :: 0 <= j < |nearby| ==> loc(PythonFrame, nearby[j]).None?
    ensures r.Some? ==> exists j :: 0 <= j < |nearby| && loc(PythonFrame, nearby[j]) == r &&
                          forall i :: 0 <= i < j ==> loc(PythonFrame, nearby[i]).None?
  {
    if nearby == [] then None
    else if loc(PythonFrame, nearby[0]).Some? then loc(PythonFrame, nearby[0])
    else
      var r := FirstPythonFrame(loc, nearby[1..]);
      assert r.Some? ==> exists j :: 1 <= j < |nearby| && loc(PythonFrame, nearby[j]) == r &&
                            forall i :: 0 <= i < j ==> loc(PythonFrame, nearby[i]).None? by {
        if r.Some? {
          var j :| 0 <= j < |nearby[1..]| && loc(PythonFrame, nearby[1..][j]) == r &&
                    forall i :: 0 <= i < j ==> loc(PythonFrame, nearby[1..][i]).None?;
          assert forall i :: 1 <= i < j + 1 ==> nearby[i] == nearby[1..][i - 1];
        }
      }
      r
  }

  /** The lines `_extract_location` searches for a Python frame when the
      matched line has no location: `lines[max(0, index-3) : min(n, index+3)]`. */
  function NearbyLines(lines: seq<string>, index: nat): (r: seq<string>)
    requires index < |lines|
    ensures |r| <= 6
  {
    lines[Max(0, index - 3)..Min(|lines|, index + 3)]
  }

  /** `_extract_location`: a Python frame on the line, else a JS frame, else a
      generic `path:line`, else a Python frame on a nearby line, else nothing. */
  function ExtractLocation(loc: LocationSearch, line: string, lines: seq<string>, index: nat): (r: Option<(string, nat)>)
    requires index < |lines|
    ensures loc(PythonFrame, line).Some? ==> r == loc(PythonFrame, line)
    ensures loc(PythonFrame, line).None? && loc(JsFrame, line).Some? ==> r == loc(JsFrame, line)
    ensures loc(PythonFrame, line).None? && loc(JsFrame, line).None? && loc(GenericLocation, line).Some? ==>
              r == loc(GenericLocation, line)
    ensures loc(PythonFrame, line).None? && loc(JsFrame, line).None? && loc(GenericLocation, line).None? ==>
              r == FirstPythonFrame(loc, NearbyLines(lines, index))
    ensures r.None? <==>
              loc(PythonFrame, line).None? && loc(JsFrame, line).None? && loc(GenericLocation, line).None? &&
              forall j :: Max(0, index - 3) <= j < Min(|lines|, index + 3) ==> loc(PythonFrame, lines[j]).None?
  {
    if loc(PythonFrame, line).Some? then loc(PythonFrame, line)
    else if loc(JsFrame, line).Some? then loc(JsFrame, line)
    else if loc(GenericLocation, line).Some? then loc(GenericLocation, line)
    else
      NearbyFrames(loc, lines, index);
      FirstPythonFrame(loc, NearbyLines(lines, index))
  }

  /** The nearby lines hold no Python frame exactly when none of the lines
      `max(0, index-3)` to `min(n, index+3)` (exclusive) does. */
  lemma NearbyFrames(loc: LocationSearch, lines: seq<string>, index: nat)
    requires index < |lines|
    ensures FirstPythonFrame(loc, NearbyLines(lines, index)).None? <==>
      forall j :: Max(0, index - 3) <= j < Min(|lines|, index + 3) ==> loc(PythonFrame, lines[j]).None?
  {
    var lo, hi := Max(0, index - 3), Min(|lines|, index + 3);
    var nearby := NearbyLines(lines, index);
    assert nearby == lines[lo..hi];
    forall j | lo <= j < hi ensures lines[j] == nearby[j - lo] {}
    forall j | 0 <= j < |nearby| ensures nearby[j] == lines[j + lo] {}
  }

  // ---------------------------------------------------------------------
  // Stack traces
  // ---------------------------------------------------------------------

  const TracebackHeader := "Traceback (most recent call last)"

  /** The backward scan of `range(i, lo, -1)`: the largest index in `(lo, i]`
      whose line holds the traceback header. */
  function TracebackStart(lines: seq<string>, i: int, lo: int): (r: Option<nat>)
    requires -1 <= lo && i < |lines|
    ensures r.Some? ==> lo < r.value <= i && Contains(lines[r.value], TracebackHeader)
    ensures r.Some? ==> forall j :: r.value < j <= i ==> !Contains(lines[j], TracebackHeader)
    ensures r.None? ==> forall j :: lo < j <= i ==> !Contains(lines[j], TracebackHeader)
    decreases i - lo
  {
    if i <= lo then None
    else if Contains(lines[i], TracebackHeader) then Some(i)
    else TracebackStart(lines, i - 1, lo)
  }

  /** A line that stops a Python traceback: not blank, not indented, and
      without "Error". */
  predicate EndsTraceback(line: string)
  {
    Strip(line) != [] && !StartsWith(line, " ") && !Contains(line, "Error")
  }

  /** The end of the traceback after the forward scan `range(j, hi)`, having
      reached `end` so far. */
  function TracebackEnd(lines: seq<string>, j: nat, hi: nat, end: nat): (r: nat)
    requires hi <= |lines| && end <= j
    ensures end <= r && (r == end || r <= hi)
    decreases hi - j
  {
    if j >= hi || EndsTraceback(lines[j]) then end
    else TracebackEnd(lines, j + 1, hi, j + 1)
  }

  /** The `at ...` frames after a Node-style error line, skipping blank lines
      and stopping at the first other line, within `range(j, hi)`. */
  function NodeFrames(lines: seq<string>, j: nat, hi: nat): (r: seq<string>)
    requires hi <= |lines|
    ensures forall f :: f in r ==> StartsWith(Strip(f), "at ") && f in lines
    decreases hi - j
  {
    if j >= hi then []
    else if StartsWith(Strip(lines[j]), "at ") then [lines[j]] + NodeFrames(lines, j + 1, hi)
    else if Strip(lines[j]) == [] then NodeFrames(lines, j + 1, hi)
    else []
  }

  /** A line of a Node-style trace's frames: stripped, it starts with "at ". */
  predicate IsAtLine(line: string)
  {
    StartsWith(Strip(line), "at ")
  }

  /** A line that ends a Node-style trace's frames: neither blank nor a frame. */
  predicate StopsNodeFrames(line: string)
  {
    Strip(line) != [] && !IsAtLine(line)
  }

  /** The frames among `s`, in order. */
  function AtLines(s: seq<string>): seq<string>
  {
    if s == [] then [] else (if IsAtLine(s[0]) then [s[0]] else []) + AtLines(s[1..])
  }

  /** The first index in `[j, hi)` whose line stops the frames, or `hi`. */
  function NodeStop(lines: seq<string>, j: nat, hi: nat): (e: nat)
    requires j <= hi <= |lines|
    ensures j <= e <= hi
    ensures forall k :: j <= k < e ==> !StopsNodeFrames(lines[k])
    ensures e < hi ==> StopsNodeFrames(lines[e])
    decreases hi - j
  {
    if j == hi || StopsNodeFrames(lines[j]) then j else NodeStop(lines, j + 1, hi)
  }

  /** The frames collected after a Node-style error line are exactly the
      frame lines, in order, before the first line that stops them. */
  lemma {:induction false} NodeFramesSpec(lines: seq<string>, j: nat, hi: nat)
    requires hi <= |lines|
    ensures j <= hi ==> NodeFrames(lines, j, hi) == AtLines(lines[j..NodeStop(lines, j, hi)])
    ensures j > hi ==> NodeFrames(lines, j, hi) == []
    decreases hi - j
  {
    if j < hi {
      NodeFramesSpec(lines, j + 1, hi);
      if !StopsNodeFrames(lines[j]) {
        var e := NodeStop(lines, j, hi);
        assert e == NodeStop(lines, j + 1, hi);
        assert lines[j..e][0] == lines[j] && lines[j..e][1..] == lines[j + 1..e];
      }
    }
  }

  /** The line can open a Node-style stack trace. */
  predicate OpensNodeTrace(line: string)
  {
    Contains(line, "at ") ||
    StartsWith(Strip(line), "Error:") || StartsWith(Strip(line), "TypeError:") ||
    StartsWith(Strip(line), "ReferenceError:")
  }

  /** `_extract_stack_trace`. A Python traceback is searched for first: the
      backward scan covers indices `start` down to `max(0, start-50)+1` (so it
      never inspects line 0), and the trace runs from the header through the
      continuation lines after `start`. Otherwise a Node-style trace is the
      error line plus its `at ...` frames, reported only with at least one frame. */
  function ExtractStackTrace(lines: seq<string>, start: nat): (r: Option<string>)
    requires start < |lines|
    ensures r.Some? && (start == 0 || TracebackStart(lines, start, Max(0, start - 50)).None?) ==>
              OpensNodeTrace(lines[start]) &&
              r.value == Join([lines[start]] + NodeFrames(lines, start + 1, Min(|lines|, start + 20)), '\n') &&
              |NodeFrames(lines, start + 1, Min(|lines|, start + 20))| >= 1
    ensures start == 0 || TracebackStart(lines, start, Max(0, start - 50)).None? ==>
              (r.Some? <==> OpensNodeTrace(lines[start]) && |NodeFrames(lines, start + 1, Min(|lines|, start + 20))| >= 1)
    ensures start > 0 && TracebackStart(lines, start, Max(0, start - 50)).Some? ==>
              var i := TracebackStart(lines, start, Max(0, start - 50)).value;
              var end := TracebackEnd(lines, start + 1, Min(|lines|, start + 20), start + 1);
              r == Some(Join(lines[i..end], '\n'))
  {
    var tb := if start > 0 then TracebackStart(lines, start, Max(0, start - 50)) else None;
    if tb.Some? then
      var end := TracebackEnd(lines, start + 1, Min(|lines|, start + 20), start + 1);
      Some(Join(lines[tb.value..end], '\n'))
    else if OpensNodeTrace(lines[start]) then
      var frames := NodeFrames(lines, start + 1, Min(|lines|, start + 20));
      if |frames| >= 1 then Some(Join([lines[start]] + frames, '\n')) else None
    else None
  }

  /** Splitting a join of separator-free parts gives the parts back. */
  lemma {:induction false} SplitJoin(parts: seq<string>, sep: char)
    requires |parts| >= 1
    requires forall k :: 0 <= k < |parts| ==> sep !in parts[k]
    ensures Split(Join(parts, sep), sep) == parts
    decreases |parts|, |parts[0]|
  {
    if |parts| == 1 {
      SplitNoSep(parts[0], sep);
    } else if |parts[0]| == 0 {
      SplitJoin(parts[1..], sep);
      assert Join(parts, sep) == [sep] + Join(parts[1..], sep);
      assert Join(parts, sep)[1..] == Join(parts[1..], sep);
    } else {
      var tail := [parts[0][1..]] + parts[1..];
      SplitJoin(tail, sep);
      assert Join(tail, sep) == parts[0][1..] + [sep] + Join(parts[1..], sep);
      assert Join(parts, sep) == [parts[0][0]] + Join(tail, sep);
      assert Join(parts, sep)[1..] == Join(tail, sep);
      assert [parts[0][0]] + parts[0][1..] == parts[0];
      assert [parts[0]] + tail[1..] == parts;
    }
  }

  lemma {:induction false} SplitNoSep(s: string, sep: char)
    requires sep !in s
    ensures Split(s, sep) == [s]
    decreases |s|
  {
    if |s| > 0 {
      SplitNoSep(s[1..], sep);
      assert [s[0]] + s[1..] == s;
    }
  }

  /** A Node-style trace reported by `_extract_stack_trace` spans more than
      one line of output. */
  lemma NodeTraceHasSeveralLines(lines: seq<string>, start: nat)
    requires start < |lines|
    requires start == 0 || TracebackStart(lines, start, Max(0, start - 50)).None?
    requires forall k :: 0 <= k < |lines| ==> '\n' !in lines[k]
    requires ExtractStackTrace(lines, start).Some?
    ensures |Split(ExtractStackTrace(lines, start).value, '\n')| >= 2
  {
    var frames := NodeFrames(lines, start + 1, Min(|lines|, start + 20));
    var parts := [lines[start]] + frames;
    forall k | 0 <= k < |parts| ensures '\n' !in parts[k] {
      if k > 0 {
        assert parts[k] == frames[k - 1];
        assert frames[k - 1] in frames;
      }
    }
    SplitJoin(parts, '\n');
  }

  /** `extract_stack_trace`: the trace found from the first line that has one. */
  function FirstStackTrace(lines: seq<string>, from: nat): (r: Option<string>)
    requires from <= |lines|
    ensures r.None? <==> forall i :: from <= i < |lines| ==> ExtractStackTrace(lines, i).None?
    decreases |lines| - from
  {
    if from == |lines| then None
    else if ExtractStackTrace(lines, from).Some? then ExtractStackTrace(lines, from)
    else FirstStackTrace(lines, from + 1)
  }

  // ---------------------------------------------------------------------
  // Parsing a log
  // ---------------------------------------------------------------------

  /** The error reported for line `i` of `lines` (which classifies as `c`). */
  function MakeError(loc: LocationSearch, d: Detector, lines: seq<string>, i: nat, c: ErrorCategory, raw: string)
    : (e: DetectedError)
    requires i < |lines|
  {
    var location := ExtractLocation(loc, lines[i], lines, i);
    DetectedError(
      category := c,
      message := Strip(lines[i]),
      lineNumber := if location.Some? then Some(location.value.1) else None,
      filePath := if location.Some? then Some(location.value.0) else None,
      stackTrace := ExtractStackTrace(lines, i),
      rawOutput := Some(raw),
      severity := "error",
      suggestedFixes := d.fixes(c),
      contextLines := ContextWindow(lines, i, d.maxContextLines))
  }

  /** The errors of the first `n` lines, before deduplication. */
  function DetectUpTo(re: Regex, loc: LocationSearch, d: Detector, lines: seq<string>, n: nat, raw: string)
    : seq<DetectedError>
    requires n <= |lines|
  {
    if n == 0 then []
    else
      var c := CategorizeLine(re, d, lines[n - 1]);
      DetectUpTo(re, loc, d, lines, n - 1, raw) +
        (if c != Unknown then [MakeError(loc, d, lines, n - 1, c, raw)] else [])
  }

  /** `DetectedError` produced from line `i` of a log. */
  predicate FromLine(re: Regex, d: Detector, lines: seq<string>, e: DetectedError, i: int)
  {
    0 <= i < |lines| &&
    e.category == CategorizeLine(re, d, lines[i]) && e.category != Unknown &&
    e.message == Strip(lines[i]) &&
    e.suggestedFixes == d.fixes(e.category) &&
    e.contextLines == ContextWindow(lines, i, d.maxContextLines) &&
    e.severity == "error"
  }

  /** Every error detected in the first `n` lines comes from one of those lines. */
  lemma {:induction false} DetectUpToFromLines(re: Regex, loc: LocationSearch, d: Detector, lines: seq<string>, n: nat,
                                               raw: string)
    requires n <= |lines|
    ensures forall e :: e in DetectUpTo(re, loc, d, lines, n, raw) ==> exists i :: 0 <= i < n && FromLine(re, d, lines, e, i)
  {
    if n > 0 {
      DetectUpToFromLines(re, loc, d, lines, n - 1, raw);
      var c := CategorizeLine(re, d, lines[n - 1]);
      if c != Unknown {
        assert FromLine(re, d, lines, MakeError(loc, d, lines, n - 1, c, raw), n - 1);
      }
    }
  }

  /** Every line of the first `n` with a known category yields its error. */
  lemma {:induction false} DetectUpToHas(re: Regex, loc: LocationSearch, d: Detector, lines: seq<string>, n: nat,
                                         raw: string, i: nat)
    requires n <= |lines| && i < n && CategorizeLine(re, d, lines[i]) != Unknown
    ensures MakeError(loc, d, lines, i, CategorizeLine(re, d, lines[i]), raw) in DetectUpTo(re, loc, d, lines, n, raw)
  {
    var c := CategorizeLine(re, d, lines[n - 1]);
    var prefix := DetectUpTo(re, loc, d, lines, n - 1, raw);
    var last := if c != Unknown then [MakeError(loc, d, lines, n - 1, c, raw)] else [];
    assert DetectUpTo(re, loc, d, lines, n, raw) == prefix + last;
    if i < n - 1 {
      DetectUpToHas(re, loc, d, lines, n - 1, raw, i);
      InLeft(MakeError(loc, d, lines, i, CategorizeLine(re, d, lines[i]), raw), prefix, last);
    } else {
      assert last[0] == MakeError(loc, d, lines, i, CategorizeLine(re, d, lines[i]), raw);
      assert (prefix + last)[|prefix|] == last[0];
    }
  }

  lemma InLeft<T>(x: T, a: seq<T>, b: seq<T>)
    requires x in a
    ensures x in a + b
  {
    var k :| 0 <= k < |a| && a[k] == x;
    assert (a + b)[k] == x;
  }

  /** The lines of the combined output `f"{output}\n{stderr}"`. */
  function CombinedLines(output: string, stderr: string): (r: seq<string>)
    ensures |r| >= 2
  {
    SplitHeadsLen(output, stderr);
    Split(output + "\n" + stderr, '\n')
  }

  lemma SplitHeadsLen(output: string, stderr: string)
    ensures |Split(output + "\n" + stderr, '\n')| >= 2
  {
    var s := output + "\n" + stderr;
    assert s[|output|] == '\n';
    assert '\n' in s;
    SplitHeads(s, '\n');
  }

  /** The errors `parse_error_logs` reports for `(output, stderr)`. */
  function ParsedErrors(re: Regex, loc: LocationSearch, d: Detector, output: string, stderr: string): seq<DetectedError>
  {
    var lines := CombinedLines(output, stderr);
    Dedup(DetectUpTo(re, loc, d, lines, |lines|, output + "\n" + stderr))
  }

  /** No categorised line is lost: every line of the combined output with a
      known category is reported, or an earlier error with the same
      normalised message is. */
  lemma ParsedErrorsComplete(re: Regex, loc: LocationSearch, d: Detector, output: string, stderr: string)
    ensures var lines := CombinedLines(output, stderr);
      forall i :: 0 <= i < |lines| && CategorizeLine(re, d, lines[i]) != Unknown ==>
        exists e :: e in ParsedErrors(re, loc, d, output, stderr) &&
          Norm(e) == Norm(MakeError(loc, d, lines, i, CategorizeLine(re, d, lines[i]), output + "\n" + stderr))
  {
    var lines := CombinedLines(output, stderr);
    var raw := output + "\n" + stderr;
    var found := DetectUpTo(re, loc, d, lines, |lines|, raw);
    DedupFromCovers(found, {});
    forall i | 0 <= i < |lines| && CategorizeLine(re, d, lines[i]) != Unknown
      ensures exists e :: e in ParsedErrors(re, loc, d, output, stderr) &&
                          Norm(e) == Norm(MakeError(loc, d, lines, i, CategorizeLine(re, d, lines[i]), raw))
    {
      DetectUpToHas(re, loc, d, lines, |lines|, raw, i);
    }
  }

  /** `parse_error_logs`: classify every line of the combined output and
      deduplicate the result. */
  method ParseErrorLogs(re: Regex, loc: LocationSearch, d: Detector, output: string, stderr: string)
    returns (errors: seq<DetectedError>)
    ensures errors == ParsedErrors(re, loc, d, output, stderr)
  {
    var combined := output + "\n" + stderr;
    var lines := CombinedLines(output, stderr);
    var found: seq<DetectedError> := [];
    var i := 0;
    while i < |lines|
      invariant 0 <= i <= |lines|
      invariant found == DetectUpTo(re, loc, d, lines, i, combined)
    {
      var category := CategorizeLine(re, d, lines[i]);
      if category != Unknown {
        found := found + [MakeError(loc, d, lines, i, category, combined)];
      }
      i := i + 1;
    }
    errors := DeduplicateErrors(found);
  }

  /** Every error `parse_error_logs` reports comes from one line of the
      combined output: a line of a known category, whose stripped text is the
      message, with that category's suggestions and the line's context window;
      and no two reported errors share a normalised message. */
  lemma ParsedErrorsWellFormed(re: Regex, loc: LocationSearch, d: Detector, output: string, stderr: string)
    ensures forall e :: e in ParsedErrors(re, loc, d, output, stderr) ==>
              exists i :: 0 <= i < |CombinedLines(output, stderr)| && FromLine(re, d, CombinedLines(output, stderr), e, i)
    ensures NormsDistinct(ParsedErrors(re, loc, d, output, stderr))
  {
    var lines := CombinedLines(output, stderr);
    var found := DetectUpTo(re, loc, d, lines, |lines|, output + "\n" + stderr);
    DetectUpToFromLines(re, loc, d, lines, |lines|, output + "\n" + stderr);
    DedupDistinct(found);
  }

  // ---------------------------------------------------------------------
  // Deduplication
  // ---------------------------------------------------------------------

  predicate IsDigit(c: char) { '0' <= c <= '9' }

  /** `s` without its leading digits. */
  function DropDigits(s: string): (r: string)
    ensures |r| <= |s| && (r == [] || !IsDigit(r[0]))
  {
    if s != [] && IsDigit(s[0]) then DropDigits(s[1..]) else s
  }

  /** `re.sub(r'\d+', 'N', s)` over ASCII digits. */
  function ReplaceDigitRuns(s: string): (r: string)
    ensures forall j :: 0 <= j < |r| ==> !IsDigit(r[j])
    decreases |s|
  {
    if s == [] then []
    else if IsDigit(s[0]) then "N" + ReplaceDigitRuns(DropDigits(s))
    else [s[0]] + ReplaceDigitRuns(s[1..])
  }

  /** The key two errors are deduplicated on. */
  function Norm(e: DetectedError): string
  {
    ReplaceDigitRuns(Strip(e.message))
  }

  /** `_deduplicate_errors` as a function: scanning in order, an error is
      kept iff its normalised message is not in `seen`, and is then added. */
  function DedupFrom(es: seq<DetectedError>, seen: set<string>): seq<DetectedError>
  {
    if es == [] then []
    else if Norm(es[0]) in seen then DedupFrom(es[1..], seen)
    else [es[0]] + DedupFrom(es[1..], seen + {Norm(es[0])})
  }

  function Dedup(es: seq<DetectedError>): seq<DetectedError>
  {
    DedupFrom(es, {})
  }

  predicate NormsDistinct(es: seq<DetectedError>)
  {
    forall i, j :: 0 <= i < j < |es| ==> Norm(es[i]) != Norm(es[j])
  }

  /** Position `i` holds the first error of `es` with its normalised message. */
  predicate FirstOccurrence(es: seq<DetectedError>, i: int)
    requires 0 <= i < |es|
  {
    forall j :: 0 <= j < i ==> Norm(es[j]) != Norm(es[i])
  }

  /** What deduplication keeps comes from its input, with a message not seen before. */
  lemma {:induction false} DedupFromElements(es: seq<DetectedError>, seen: set<string>)
    ensures forall e :: e in DedupFrom(es, seen) ==> e in es && Norm(e) !in seen
  {
    if es != [] {
      DedupFromElements(es[1..], seen);
      DedupFromElements(es[1..], seen + {Norm(es[0])});
    }
  }

  lemma {:induction false} DedupFromDistinct(es: seq<DetectedError>, seen: set<string>)
    ensures NormsDistinct(DedupFrom(es, seen))
  {
    if es != [] {
      DedupFromDistinct(es[1..], seen);
      DedupFromDistinct(es[1..], seen + {Norm(es[0])});
      DedupFromElements(es[1..], seen + {Norm(es[0])});
      if Norm(es[0]) !in seen {
        var rest := DedupFrom(es[1..], seen + {Norm(es[0])});
        assert forall j :: 0 <= j < |rest| ==> Norm(rest[j]) != Norm(es[0]) by {
          forall j | 0 <= j < |rest| ensures Norm(rest[j]) != Norm(es[0]) {
            assert rest[j] in rest;
          }
        }
      }
    }
  }

  /** Deduplication loses no message: each input error's normalised message
      was already seen or is carried by a kept error. */
  lemma {:induction false} DedupFromCovers(es: seq<DetectedError>, seen: set<string>)
    ensures forall e :: e in es ==> Norm(e) in seen || exists k :: k in DedupFrom(es, seen) && Norm(k) == Norm(e)
  {
    if es != [] {
      var seen' := if Norm(es[0]) in seen then seen else seen + {Norm(es[0])};
      DedupFromCovers(es[1..], seen');
      forall e | e in es && Norm(e) !in seen
        ensures exists k :: k in DedupFrom(es, seen) && Norm(k) == Norm(e)
      {
        if e == es[0] {
          assert es[0] in DedupFrom(es, seen);
        } else {
          assert e in es[1..];
          if Norm(e) == Norm(es[0]) {
            assert es[0] in DedupFrom(es, seen);
          } else {
            var k :| k in DedupFrom(es[1..], seen') && Norm(k) == Norm(e);
            assert k in DedupFrom(es, seen);
          }
        }
      }
    }
  }

  /** No two errors kept by deduplication share a normalised message, and
      every kept error is one of the input's. */
  lemma DedupDistinct(es: seq<DetectedError>)
    ensures NormsDistinct(Dedup(es))
    ensures forall e :: e in Dedup(es) ==> e in es
  {
    DedupFromDistinct(es, {});
    DedupFromElements(es, {});
  }

  lemma {:induction false} DedupFromKeepsFirst(es: seq<DetectedError>, seen: set<string>, i: nat)
    requires i < |es| && FirstOccurrence(es, i) && Norm(es[i]) !in seen
    ensures es[i] in DedupFrom(es, seen)
  {
    if i > 0 {
      assert FirstOccurrence(es[1..], i - 1) by {
        forall j | 0 <= j < i - 1 ensures Norm(es[1..][j]) != Norm(es[1..][i - 1]) {
          assert Norm(es[j + 1]) != Norm(es[i]);
        }
      }
      assert Norm(es[0]) != Norm(es[i]);
      if Norm(es[0]) in seen {
        DedupFromKeepsFirst(es[1..], seen, i - 1);
      } else {
        DedupFromKeepsFirst(es[1..], seen + {Norm(es[0])}, i - 1);
      }
    }
  }

  /** Deduplication keeps the first occurrence of every normalised message. */
  lemma DedupKeepsFirstOccurrences(es: seq<DetectedError>, i: nat)
    requires i < |es| && FirstOccurrence(es, i)
    ensures es[i] in Dedup(es)
  {
    DedupFromKeepsFirst(es, {}, i);
  }

  /** `a` is an order-preserving subsequence of `b`. */
  predicate IsSubsequence<T(==)>(a: seq<T>, b: seq<T>)
    decreases |b|
  {
    if a == [] then true
    else if b == [] then false
    else if a[0] == b[0] then IsSubsequence(a[1..], b[1..])
    else IsSubsequence(a, b[1..])
  }

  lemma {:induction false} DedupFromSubsequence(es: seq<DetectedError>, seen: set<string>)
    ensures IsSubsequence(DedupFrom(es, seen), es)
  {
    if es != [] {
      var d := DedupFrom(es, seen);
      if Norm(es[0]) in seen {
        DedupFromSubsequence(es[1..], seen);
        SubsequenceSkip(d, es[1..], es[0]);
      } else {
        DedupFromSubsequence(es[1..], seen + {Norm(es[0])});
        assert d[1..] == DedupFrom(es[1..], seen + {Norm(es[0])});
      }
    }
  }

  lemma {:induction false} SubsequenceSkip(a: seq<DetectedError>, b: seq<DetectedError>, x: DetectedError)
    requires IsSubsequence(a, b)
    ensures IsSubsequence(a, [x] + b)
    decreases |b|, 1
  {
    assert ([x] + b)[1..] == b;
    if a != [] && a[0] == x {
      SubsequenceDropHead(a, b);
    }
  }

  lemma {:induction false} SubsequenceDropHead(a: seq<DetectedError>, b: seq<DetectedError>)
    requires a != [] && IsSubsequence(a, b)
    ensures IsSubsequence(a[1..], b)
    decreases |b|, 0
  {
    if a[0] == b[0] {
      SubsequenceSkip(a[1..], b[1..], b[0]);
    } else {
      SubsequenceDropHead(a, b[1..]);
      SubsequenceSkip(a[1..], b[1..], b[0]);
    }
    assert [b[0]] + b[1..] == b;
  }

  /** Deduplication output is an order-preserving subsequence of its input. */
  lemma DedupSubsequence(es: seq<DetectedError>)
    ensures IsSubsequence(Dedup(es), es)
  {
    DedupFromSubsequence(es, {});
  }

  lemma {:induction false} DedupFromOfDistinct(es: seq<DetectedError>, seen: set<string>)
    requires NormsDistinct(es)
    requires forall j :: 0 <= j < |es| ==> Norm(es[j]) !in seen
    ensures DedupFrom(es, seen) == es
  {
    if es != [] {
      assert NormsDistinct(es[1..]) by {
        forall i, j | 0 <= i < j < |es[1..]| ensures Norm(es[1..][i]) != Norm(es[1..][j]) {
          assert Norm(es[i + 1]) != Norm(es[j + 1]);
        }
      }
      forall j | 0 <= j < |es[1..]| ensures Norm(es[1..][j]) !in seen + {Norm(es[0])} {
        assert Norm(es[0]) != Norm(es[j + 1]);
      }
      DedupFromOfDistinct(es[1..], seen + {Norm(es[0])});
      assert [es[0]] + es[1..] == es;
    }
  }

  /** Deduplication is idempotent. */
  lemma DedupIdempotent(es: seq<DetectedError>)
    ensures Dedup(Dedup(es)) == Dedup(es)
  {
    DedupFromDistinct(es, {});
    DedupFromOfDistinct(Dedup(es), {});
  }

  /** Every character of `s` is a digit. */
  predicate AllDigits(s: string)
  {
    forall j :: 0 <= j < |s| ==> IsDigit(s[j])
  }

  /** `d` is a whole run of digits between `a` and `b`: non-empty, with no
      digit just before or just after it. */
  predicate DigitRunBetween(a: string, d: string, b: string)
  {
    d != [] && AllDigits(d) && (a == [] || !IsDigit(a[|a| - 1])) && (b == [] || !IsDigit(b[0]))
  }

  /** A message without digits is its own normal form. */
  lemma {:induction false} ReplaceDigitRunsDigitFree(s: string)
    requires forall j :: 0 <= j < |s| ==> !IsDigit(s[j])
    ensures ReplaceDigitRuns(s) == s
    decreases |s|
  {
    if s != [] {
      ReplaceDigitRunsDigitFree(s[1..]);
      assert s == [s[0]] + s[1..];
    }
  }

  /** Leading digits are dropped through a whole run into what follows it. */
  lemma {:induction false} DropDigitsRun(d: string, b: string)
    requires AllDigits(d) && (b == [] || !IsDigit(b[0]))
    ensures DropDigits(d + b) == b
    decreases |d|
  {
    if d != [] {
      assert (d + b)[1..] == d[1..] + b;
      DropDigitsRun(d[1..], b);
    }
  }

  /** Dropping the leading digits of a string that ends in a non-digit stops
      inside it: what follows is kept, and what is left is shorter when it
      started with a digit and still ends in the same non-digit. */
  lemma {:induction false} DropDigitsStops(a: string, x: string)
    requires a != [] && !IsDigit(a[|a| - 1])
    ensures DropDigits(a + x) == DropDigits(a) + x
    ensures DropDigits(a) != [] && DropDigits(a)[|DropDigits(a)| - 1] == a[|a| - 1]
    ensures IsDigit(a[0]) ==> |DropDigits(a)| < |a|
    decreases |a|
  {
    if IsDigit(a[0]) {
      assert (a + x)[1..] == a[1..] + x;
      DropDigitsStops(a[1..], x);
    }
  }

  /** A whole run of digits becomes a single "N", and the text around it is
      normalised on its own. */
  lemma ReplaceDigitRunsConcat(a: string, d: string, b: string)
    requires DigitRunBetween(a, d, b)
    ensures ReplaceDigitRuns(a + d + b) == ReplaceDigitRuns(a) + "N" + ReplaceDigitRuns(b)
  {
    DropDigitsRun(d, b);
    RunAfter(a, d + b, ReplaceDigitRuns(b));
    assert a + d + b == a + (d + b);
  }

  /** `RunAfter` with the run `x` normalised to `n`, whatever `a` before it. */
  lemma {:induction false} RunAfter(a: string, x: string, n: string)
    requires x != [] && IsDigit(x[0]) && ReplaceDigitRuns(x) == "N" + n
    requires a == [] || !IsDigit(a[|a| - 1])
    ensures ReplaceDigitRuns(a + x) == ReplaceDigitRuns(a) + "N" + n
    decreases |a|
  {
    if a == [] {
      assert a + x == x;
    } else if IsDigit(a[0]) {
      RunAfterDigit(a, x, n);
    } else {
      RunAfterOther(a, x, n);
    }
  }

  lemma {:induction false} RunAfterDigit(a: string, x: string, n: string)
    requires x != [] && IsDigit(x[0]) && ReplaceDigitRuns(x) == "N" + n
    requires a != [] && !IsDigit(a[|a| - 1]) && IsDigit(a[0])
    ensures ReplaceDigitRuns(a + x) == ReplaceDigitRuns(a) + "N" + n
    decreases |a|, 0
  {
    DropDigitsStops(a, x);
    var rest := DropDigits(a);
    RunAfter(rest, x, n);
    assert ReplaceDigitRuns(a + x) == "N" + ReplaceDigitRuns(rest + x);
    assert ReplaceDigitRuns(a) == "N" + ReplaceDigitRuns(rest);
  }

  lemma {:induction false} RunAfterOther(a: string, x: string, n: string)
    requires x != [] && IsDigit(x[0]) && ReplaceDigitRuns(x) == "N" + n
    requires a != [] && !IsDigit(a[|a| - 1]) && !IsDigit(a[0])
    ensures ReplaceDigitRuns(a + x) == ReplaceDigitRuns(a) + "N" + n
    decreases |a|, 0
  {
    var tail := a[1..];
    assert (a + x)[1..] == tail + x;
    if tail != [] {
      assert tail[|tail| - 1] == a[|a| - 1];
    }
    RunAfter(tail, x, n);
    assert ReplaceDigitRuns(a + x) == [a[0]] + ReplaceDigitRuns(tail + x);
    assert ReplaceDigitRuns(a) == [a[0]] + ReplaceDigitRuns(tail);
  }

  /** Two messages that differ only in one run of digits ("error on line
      10", "error on line 42") normalise alike. */
  lemma DigitRunsCollapse(a: string, d1: string, d2: string, b: string)
    requires DigitRunBetween(a, d1, b) && DigitRunBetween(a, d2, b)
    ensures ReplaceDigitRuns(a + d1 + b) == ReplaceDigitRuns(a + d2 + b)
  {
    ReplaceDigitRunsConcat(a, d1, b);
    ReplaceDigitRunsConcat(a, d2, b);
  }

  /** `_deduplicate_errors`: keep the first error per normalised message. */
  method DeduplicateErrors(errors: seq<DetectedError>) returns (unique: seq<DetectedError>)
    ensures unique == Dedup(errors)
  {
    var seen: set<string> := {};
    unique := [];
    var i := 0;
    while i < |errors|
      invariant 0 <= i <= |errors|
      invariant unique + DedupFrom(errors[i..], seen) == Dedup(errors)
    {
      var normalized := Norm(errors[i]);
      assert errors[i..][1..] == errors[i + 1..];
      if normalized !in seen {
        seen := seen + {normalized};
        unique := unique + [errors[i]];
      }
      i := i + 1;
    }
  }

  // ---------------------------------------------------------------------
  // Grouping by category
  // ---------------------------------------------------------------------

  /** The errors of `es` in category `c`, in input order. */
  function FilterCategory(es: seq<DetectedError>, c: ErrorCategory): (r: seq<DetectedError>)
    ensures |r| <= |es|
  {
    if es == [] then []
    else FilterCategory(es[..|es| - 1], c) + (if es[|es| - 1].category == c then [es[|es| - 1]] else [])
  }

  /** A dict of buckets in insertion order. */
  type Buckets = seq<(ErrorCategory, seq<DetectedError>)>

  function Keys(b: Buckets): (r: seq<ErrorCategory>)
    ensures |r| == |b| && forall k :: 0 <= k < |b| ==> r[k] == b[k].0
  {
    if b == [] then [] else Keys(b[..|b| - 1]) + [b[|b| - 1].0]
  }

  /** The categories of `es`, each once, in order of first appearance. */
  function CategoriesInOrder(es: seq<DetectedError>): seq<ErrorCategory>
  {
    if es == [] then []
    else
      var init := CategoriesInOrder(es[..|es| - 1]);
      if es[|es| - 1].category in init then init else init + [es[|es| - 1].category]
  }

  /** The position of key `c` in `b`, or `|b|` when `c` is not a key (dict lookup). */
  function KeyIndex(b: Buckets, c: ErrorCategory): (k: nat)
    ensures k <= |b| && (k < |b| ==> b[k].0 == c)
    ensures forall j :: 0 <= j < k ==> b[j].0 != c
  {
    if b == [] then 0
    else if b[0].0 == c then 0
    else 1 + KeyIndex(b[1..], c)
  }

  /** `categorized.setdefault(e.category, []).append(e)`. */
  function AddToBucket(b: Buckets, e: DetectedError): Buckets
  {
    var k := KeyIndex(b, e.category);
    if k == |b| then b + [(e.category, [e])]
    else b[k := (e.category, b[k].1 + [e])]
  }

  /** `categorize_errors` as a function. */
  function Categorize(es: seq<DetectedError>): Buckets
  {
    if es == [] then []
    else AddToBucket(Categorize(es[..|es| - 1]), es[|es| - 1])
  }

  lemma {:induction false} CategoriesInOrderCovers(es: seq<DetectedError>)
    ensures forall e :: e in es ==> e.category in CategoriesInOrder(es)
    ensures forall c :: c !in CategoriesInOrder(es) ==> FilterCategory(es, c) == []
  {
    if es != [] {
      var init := es[..|es| - 1];
      CategoriesInOrderCovers(init);
      assert es == init + [es[|es| - 1]];
    }
  }

  /** The effect of one `setdefault(...).append(e)` on the keys: a new key
      goes last, an existing key keeps its place. */
  lemma AddToBucketKeys(b: Buckets, e: DetectedError)
    ensures Keys(AddToBucket(b, e)) == if e.category in Keys(b) then Keys(b) else Keys(b) + [e.category]
  {
    var k := KeyIndex(b, e.category);
    var ks := Keys(AddToBucket(b, e));
    if k == |b| {
      assert e.category !in Keys(b);
      assert ks == Keys(b) + [e.category];
    } else {
      assert Keys(b)[k] == e.category;
      assert ks == Keys(b);
    }
  }

  /** The effect of one `setdefault(...).append(e)` on the buckets: only the
      bucket of `e`'s category grows, by `e` at its end. */
  lemma AddToBucketEntries(b: Buckets, e: DetectedError)
    ensures forall j :: 0 <= j < |b| ==>
              AddToBucket(b, e)[j] == if j == KeyIndex(b, e.category) then (b[j].0, b[j].1 + [e]) else b[j]
    ensures e.category !in Keys(b) ==> AddToBucket(b, e)[|b|] == (e.category, [e])
  {
    if KeyIndex(b, e.category) < |b| {
      assert Keys(b)[KeyIndex(b, e.category)] == e.category;
    }
  }

  /** `categorize_errors` is a partition: its keys are the categories present,
      each once, in order of first appearance, and the bucket of each key
      holds exactly that category's errors in input order. */
  lemma {:induction false} CategorizePartition(es: seq<DetectedError>)
    ensures Keys(Categorize(es)) == CategoriesInOrder(es)
    ensures forall k :: 0 <= k < |Categorize(es)| ==> Categorize(es)[k].1 == FilterCategory(es, Categorize(es)[k].0)
  {
    if es != [] {
      var init := es[..|es| - 1];
      var e := es[|es| - 1];
      var b := Categorize(init);
      CategorizePartition(init);
      AddToBucketKeys(b, e);
      var r := Categorize(es);
      assert r == AddToBucket(b, e);
      forall k | 0 <= k < |r| ensures r[k].1 == FilterCategory(es, r[k].0) {
        BucketStep(init, e, b, k);
      }
    }
  }

  /** One bucket after `setdefault(...).append(e)`, when every bucket before
      held its category's errors of `init`. */
  lemma BucketStep(init: seq<DetectedError>, e: DetectedError, b: Buckets, k: nat)
    requires Keys(b) == CategoriesInOrder(init)
    requires forall j :: 0 <= j < |b| ==> b[j].1 == FilterCategory(init, b[j].0)
    requires k < |AddToBucket(b, e)|
    ensures AddToBucket(b, e)[k].1 == FilterCategory(init + [e], AddToBucket(b, e)[k].0)
  {
    var es := init + [e];
    assert es[..|es| - 1] == init;
    AddToBucketEntries(b, e);
    CategoriesInOrderCovers(init);
    CategoriesInOrderDistinct(init);
    var ki := KeyIndex(b, e.category);
    if k < |b| && k != ki {
      assert Keys(b)[k] == b[k].0;
      if ki < |b| {
        assert Keys(b)[ki] == e.category;
      }
    }
  }

  lemma {:induction false} CategoriesInOrderDistinct(es: seq<DetectedError>)
    ensures forall i, j :: 0 <= i < j < |CategoriesInOrder(es)| ==> CategoriesInOrder(es)[i] != CategoriesInOrder(es)[j]
    ensures forall c :: c in CategoriesInOrder(es) ==> exists e :: e in es && e.category == c
  {
    if es != [] {
      var init := es[..|es| - 1];
      CategoriesInOrderDistinct(init);
      assert es == init + [es[|es| - 1]];
    }
  }

  lemma {:induction false} FilterCategoryCount(es: seq<DetectedError>, c: ErrorCategory, e: DetectedError)
    ensures multiset(FilterCategory(es, c))[e] == if e.category == c then multiset(es)[e] else 0
  {
    if es != [] {
      var init := es[..|es| - 1];
      FilterCategoryCount(init, c, e);
      assert es == init + [es[|es| - 1]];
    }
  }

  /** Every input error sits in exactly one bucket, its own category's, as
      often as it occurs in the input; and no bucket is empty. */
  lemma CategorizeEachErrorOnce(es: seq<DetectedError>, e: DetectedError)
    requires e in es
    ensures exists k :: 0 <= k < |Categorize(es)| && Categorize(es)[k].0 == e.category
    ensures forall k :: 0 <= k < |Categorize(es)| ==>
              multiset(Categorize(es)[k].1)[e] == if Categorize(es)[k].0 == e.category then multiset(es)[e] else 0
    ensures forall k, l :: 0 <= k < l < |Categorize(es)| ==> Categorize(es)[k].0 != Categorize(es)[l].0
  {
    CategorizeHasKey(es, e);
    CategorizeCounts(es, e);
    CategorizeDistinct(es);
  }

  lemma CategorizeHasKey(es: seq<DetectedError>, e: DetectedError)
    requires e in es
    ensures exists k :: 0 <= k < |Categorize(es)| && Categorize(es)[k].0 == e.category
  {
    var b := Categorize(es);
    CategorizePartition(es);
    CategoriesInOrderCovers(es);
    var k :| 0 <= k < |Keys(b)| && Keys(b)[k] == e.category;
    assert b[k].0 == e.category;
  }

  lemma CategorizeCounts(es: seq<DetectedError>, e: DetectedError)
    ensures forall k :: 0 <= k < |Categorize(es)| ==>
              multiset(Categorize(es)[k].1)[e] == if Categorize(es)[k].0 == e.category then multiset(es)[e] else 0
  {
    var b := Categorize(es);
    CategorizePartition(es);
    forall k | 0 <= k < |b| ensures multiset(b[k].1)[e] == if b[k].0 == e.category then multiset(es)[e] else 0 {
      FilterCategoryCount(es, b[k].0, e);
    }
  }

  lemma CategorizeDistinct(es: seq<DetectedError>)
    ensures forall k, l :: 0 <= k < l < |Categorize(es)| ==> Categorize(es)[k].0 != Categorize(es)[l].0
  {
    var b := Categorize(es);
    CategorizePartition(es);
    CategoriesInOrderDistinct(es);
    forall k, l | 0 <= k < l < |b| ensures b[k].0 != b[l].0 {
      assert b[k].0 == Keys(b)[k] && b[l].0 == Keys(b)[l];
    }
  }

  /** `categorize_errors`: group errors by category in a dict that keeps the
      order in which categories first appear. */
  method CategorizeErrors(errors: seq<DetectedError>) returns (categorized: Buckets)
    ensures categorized == Categorize(errors)
  {
    categorized := [];
    var i := 0;
    while i < |errors|
      invariant 0 <= i <= |errors|
      invariant categorized == Categorize(errors[..i])
    {
      var e := errors[i];
      assert errors[..i + 1][..i] == errors[..i];
      ghost var before := categorized;
      var k := KeyIndex(categorized, e.category);
      if k == |categorized| {
        categorized := categorized + [(e.category, [])];
      }
      categorized := categorized[k := (e.category, categorized[k].1 + [e])];
      assert k == |before| ==> categorized == before + [(e.category, [] + [e])];
      assert [] + [e] == [e];
      i := i + 1;
    }
    assert errors[..|errors|] == errors;
  }

  // ---------------------------------------------------------------------
  // Suggestions and report
  // ---------------------------------------------------------------------

  const CannotFindModule := Re("Cannot find module ['\\\"](.+?)['\\\"]")
  const NoModuleNamed := Re("No module named ['\\\"]?([\\w\\.]+)['\\\"]?")

  /** The `npm install` hint for a non-relative "Cannot find module". */
  function NpmHint(re: Regex, e: DetectedError): (r: seq<string>)
    ensures |r| <= 1
  {
    if Contains(Lower(e.message), "cannot find module") && re.group(CannotFindModule, e.message).Some? &&
       !StartsWith(re.group(CannotFindModule, e.message).value, ".")
    then ["Install missing module: npm install " + re.group(CannotFindModule, e.message).value]
    else []
  }

  /** The `pip install` hint for "No module named", naming the top-level package. */
  function PipHint(re: Regex, e: DetectedError): (r: seq<string>)
    ensures |r| <= 1
  {
    if Contains(Lower(e.message), "no module named") && re.group(NoModuleNamed, e.message).Some?
    then ["Install missing module: pip install " + BeforeFirst(re.group(NoModuleNamed, e.message).value, '.')]
    else []
  }

  /** The generic hints appended after the category's suggestions. */
  function ToolHints(e: DetectedError): seq<string>
  {
    var m := Lower(e.message);
    (if Contains(m, "npm") || Contains(m, "node_modules") then ["Try: rm -rf node_modules && npm install"] else []) +
    (if Contains(m, "pip") || Contains(m, "python") then ["Try creating a fresh virtual environment"] else []) +
    (if Contains(m, "enoent") && Contains(m, ".env") then ["Create a .env file from .env.example if available"] else [])
  }

  /** `suggest_fixes`: a copy of the category's suggestions with the tool hints
      appended, then the npm hint and the pip hint each inserted at the front. */
  method SuggestFixes(re: Regex, d: Detector, error: DetectedError) returns (suggestions: seq<string>)
    ensures suggestions == PipHint(re, error) + NpmHint(re, error) + d.fixes(error.category) + ToolHints(error)
  {
    suggestions := AppendToolHints(d.fixes(error.category), error);
    suggestions := PrependModuleHints(re, error, suggestions);
    ConcatAssoc(PipHint(re, error), NpmHint(re, error), d.fixes(error.category), ToolHints(error));
  }

  /** The first half of `suggest_fixes`: the three generic hints, in order. */
  method AppendToolHints(base: seq<string>, error: DetectedError) returns (suggestions: seq<string>)
    ensures suggestions == base + ToolHints(error)
  {
    suggestions := base;
    var messageLower := Lower(error.message);
    if Contains(messageLower, "npm") || Contains(messageLower, "node_modules") {
      suggestions := suggestions + ["Try: rm -rf node_modules && npm install"];
    }
    if Contains(messageLower, "pip") || Contains(messageLower, "python") {
      suggestions := suggestions + ["Try creating a fresh virtual environment"];
    }
    if Contains(messageLower, "enoent") && Contains(messageLower, ".env") {
      suggestions := suggestions + ["Create a .env file from .env.example if available"];
    }
  }

  /** The second half of `suggest_fixes`: the npm hint, then the pip hint,
      each inserted at the front. */
  method PrependModuleHints(re: Regex, error: DetectedError, base: seq<string>) returns (suggestions: seq<string>)
    ensures suggestions == PipHint(re, error) + (NpmHint(re, error) + base)
  {
    suggestions := base;
    var messageLower := Lower(error.message);
    if Contains(messageLower, "cannot find module") {
      var m := re.group(CannotFindModule, error.message);
      if m.Some? {
        var name := m.value;
        if !StartsWith(name, ".") {
          suggestions := ["Install missing module: npm install " + name] + suggestions;
        }
      }
    }
    assert suggestions == NpmHint(re, error) + base;
    if Contains(messageLower, "no module named") {
      var m := re.group(NoModuleNamed, error.message);
      if m.Some? {
        var name := BeforeFirst(m.value, '.');
        suggestions := ["Install missing module: pip install " + name] + suggestions;
      }
    }
  }

  lemma ConcatAssoc(a: seq<string>, b: seq<string>, c: seq<string>, d: seq<string>)
    ensures a + (b + (c + d)) == a + b + c + d
  {
  }

  /** A "Cannot find module 'm'" message gets the hint `npm install m`,
      unless `m` is a relative path. */
  lemma NpmHintNamesModule(re: Regex, e: DetectedError, captured: string)
    requires Contains(Lower(e.message), "cannot find module")
    requires re.group(CannotFindModule, e.message) == Some(captured)
    ensures !StartsWith(captured, ".") ==> NpmHint(re, e) == ["Install missing module: npm install " + captured]
    ensures StartsWith(captured, ".") ==> NpmHint(re, e) == []
  {
  }

  /** The first suggestion for a "No module named 'requests.adapters'" style
      message names the top-level package. */
  lemma PipHintNamesTopLevel(re: Regex, e: DetectedError, captured: string)
    requires Contains(Lower(e.message), "no module named")
    requires re.group(NoModuleNamed, e.message) == Some(captured)
    ensures PipHint(re, e) == ["Install missing module: pip install " + BeforeFirst(captured, '.')]
    ensures '.' !in BeforeFirst(captured, '.') && BeforeFirst(captured, '.') <= captured
  {
  }

  /** The structure of `generate_error_report`: either the no-error text or
      the count and the category sections in order of first appearance. */
  datatype ErrorReport = NoErrorsDetected | Found(count: nat, sections: Buckets)

  function GenerateErrorReport(errors: seq<DetectedError>): (r: ErrorReport)
    ensures r.NoErrorsDetected? <==> errors == []
    ensures r.Found? ==> r.count == |errors| && Keys(r.sections) == CategoriesInOrder(errors)
  {
    if errors == [] then NoErrorsDetected
    else
      CategorizePartition(errors);
      Found(|errors|, Categorize(errors))
  }

  /** The first line of the rendered report. */
  function ReportHeader(r: ErrorReport): string
  {
    match r
    case NoErrorsDetected => "No errors detected."
    case Found(n, _) => "Found " + NatToString(n) + " error(s):\n"
  }
}
