# ai-orchestrator verification engine and task router, in Dafny

This project models two parts of the ai-orchestrator repository and proves
properties of the model:

- the verification engine under `ai_orchestrator/execution/`;
- the task router in `ai_orchestrator/router.py`.

The verification engine runs a project, reads what broke, tries fixes and runs
it again. The model covers:

- **ErrorDetector** (`error_detector.dfy`): line classification against the
  ordered pattern table, context windows, location and stack-trace
  extraction, deduplication on digit-normalised messages, grouping by
  category, fix suggestions and the report's structure.
- **Fix strategies** (`fix_strategies.dfy`):
  - the registry: registration order, and the filtered, stable
    confidence-sorted query;
  - the name, port, path and variable extractors;
  - the permission and `.env` fixers over a model filesystem, with their
    rollback records;
  - the syntax fix type and the fixer collection.
- **TestExecutor** (`test_executor.dfy`):
  - suite counts;
  - framework detection over a model filesystem;
  - the six output parsers and the dispatcher;
  - `run_tests`: command resolution, truncation, and the final success
    override.
- **Project types** (`project_types.dfy`):
  - the priority-ordered handler list and first-match detection;
  - each handler's `detect` and `get_config`.
- **ProjectRunner** (`runner.dfy`):
  - the bounded output capture (a class whose methods update its fields);
  - command and environment precedence;
  - setup;
  - the retry loop with its cancel flag;
  - the exit-status mapping of one execution;
  - error detection on the tail of the output;
  - the downgrade of a success that still printed errors.
- **VerificationLoop** (`verification_loop.dfy`): a class holding the loop's
  state. Its methods are proved against functions of the old state:
  - the per-error attempt cap;
  - one cycle;
  - the progress counters and trend;
  - stuck-loop detection;
  - the continue/stop decision;
  - `run_development_cycle`;
  - the recommendations;
  - the fix history.
- **TaskRouter** (`router.dfy`):
  - keyword-score classification with first-maximum tie-breaking;
  - model fallback;
  - detection of every matching type;
  - the multi-model workflow of chained subtasks sorted by `priority_order`;
  - contextual prompts.

Shared modules:

- `Text` models the Python string built-ins the core uses (`split`,
  `strip`, `lower`, `str(n)`, first-match extraction).
- `Files` models the filesystem: a map from path to node, and the
  `FileSystem` class that the fixers mutate.

The regular-expression engine is an abstract parameter (`Regex`): a record of
total functions for `re.search`, group 1, numeric groups, `findall` counts and
`finditer` matches. Each pattern table keeps the source's pattern strings as
literal data. Every claim about matching is stated in terms of these
functions.

External effects are parameters:

- A project execution is a `Launch` value: its exit, or expiry of the
  timeout, and the lines it printed.
- A test run is an `Execution` value.
- An installer is a function from command, directory and environment to a
  completed process.
- The AutoFixer collaborator and the per-cycle results are a `World` value:
  `run`, `test`, `generate`, `apply` and the cycle at which `cancel()` is
  observed.
- `os.environ` is an `Env` parameter.

Where the code's behaviour differs from its evident intent, the model
follows the code:

- **A regressing trend.** `should_continue` stops with reason "regressing"
  (ai_orchestrator/execution/verification_loop.py:452-454).
  `run_development_cycle` maps no status to that reason (:191-198). So the
  loop stops with status RUNNING, or MAX_RETRIES_REACHED once `max_cycles`
  cycles have run (:201-202). It does not stop with FAILED or
  NEEDS_HUMAN_HELP. `Loop.StoppedStatus` states this.
- **A TIMEOUT execution.** `_run_single_cycle` collects errors only when the
  status is neither SUCCESS nor TIMEOUT
  (ai_orchestrator/execution/verification_loop.py:233). A timed-out cycle
  therefore finds no errors, and its status is "execution_completed"
  (:282); `Loop.CycleShape` states this. `should_continue` then stops with
  reason "success", because the cycle found no errors (:472-473), and the
  loop ends SUCCESS. `Loop.DecisionWithoutErrors` states this.
- **A failed test run.** The tests-failed branch reads
  `test_result.error_output`, a field `TestResult` does not have
  (ai_orchestrator/execution/test_executor.py:63-77). The AttributeError is caught by
  `run_development_cycle`, and the loop ends FAILED. No cycle ever has
  status "tests_failed". `Loop.CycleRaises` and `Loop.CycleShape` state
  this.
- **An auto-fixer call that raises.** `_attempt_fix` raises the error's
  attempt count and marks its hash seen before it calls `analyze_error`,
  `generate_fix` and `apply_fix` (:295-296). When one of them raises, the
  loop ends FAILED and keeps the raised counts. `Loop.AttemptWithinCap`,
  `Loop.CycleRaises` and `Loop.StepWithStatus` state this.
- **An unreadable `package.json` or `manage.py`.** `_read_json` catches only
  a missing file and malformed JSON
  (ai_orchestrator/execution/project_types.py:54-60). A `package.json` that
  exists but cannot be opened therefore makes `detect_project_type`, the
  Node-based `get_config`s and `run_project` raise.
  `ProjectTypes.DetectProjectTypeFirstMatch` and `Runner.RunProjectRaises`
  state this. In `detect_test_framework` the `package.json` read sits in a
  `try` that swallows every error. The `manage.py` read is outside any `try`
  (ai_orchestrator/execution/test_executor.py:154), so an unreadable
  `manage.py` makes detection raise. `TestExecutor.DetectRaisesOnManagePy`
  states this.
- **The UNITTEST framework.** `detect_test_framework` never returns it. The
  pytest row of the indicator table comes first, and it includes the only
  unittest indicator, `test_*.py`. `TestExecutor.DetectNeverUnittest` states
  this.

## Model

| member | source | states |
|---|---|---|
| ErrorDetector.DefaultDetectorValid | ai_orchestrator/execution/error_detector.py:52-314 | The default detector keeps 5 context lines, and no row of its pattern table has category UNKNOWN. |
| ErrorDetector.FirstPatternMatch | ai_orchestrator/execution/error_detector.py:434-436 | The inner scan over one category's patterns finds a match exactly when some pattern of the list matches the line. |
| ErrorDetector.FirstCategorySpec | ai_orchestrator/execution/error_detector.py:431-437 | Over any table without UNKNOWN rows, the result is UNKNOWN iff no row has a matching pattern. Otherwise it is the category of the first row, in table order, that has one. |
| ErrorDetector.CategorizeLineFirstMatch | ai_orchestrator/execution/error_detector.py:431-437 | `_categorize_line` gives UNKNOWN exactly when no pattern of the detector's table matches. Otherwise it gives the first matching row's category. |
| ErrorDetector.ImportLineIsImport | ai_orchestrator/execution/error_detector.py:52-83 | A line matching "ModuleNotFoundError:" and no SYNTAX, RUNTIME or DEPENDENCY pattern is classified IMPORT. |
| ErrorDetector.ContextWindow | ai_orchestrator/execution/error_detector.py:335-337 | The context of line i is `lines[max(0,i-k):min(n,i+k+1)]`. It holds line i at offset `min(i,k)` and has at most 2k+1 lines. |
| ErrorDetector.FirstPythonFrame | ai_orchestrator/execution/error_detector.py:460-463 | The nearby search returns the first nearby line's Python frame, and None iff no nearby line has one. |
| ErrorDetector.NearbyLines | ai_orchestrator/execution/error_detector.py:460 | The nearby slice has at most 6 lines. |
| ErrorDetector.ExtractLocation | ai_orchestrator/execution/error_detector.py:439-465 | It tries, in order, a Python frame, a JS frame and a generic `path:line` on the line itself, then Python frames on lines index-3 to index+2. It gives None iff all of these fail. |
| ErrorDetector.NearbyFrames | ai_orchestrator/execution/error_detector.py:460-465 | The nearby search finds nothing iff no line with index in [max(0,index-3), min(n,index+3)) has a Python frame. |
| ErrorDetector.TracebackStart | ai_orchestrator/execution/error_detector.py:472-473 | The backward scan returns the largest index in (lo, i] whose line holds the traceback header, and None when there is none. |
| ErrorDetector.TracebackEnd | ai_orchestrator/execution/error_detector.py:475-479 | The forward scan's end never decreases and never passes the scan bound. |
| ErrorDetector.NodeFrames | ai_orchestrator/execution/error_detector.py:484-491 | Every collected frame is a line of the output whose stripped text starts with "at ". |
| ErrorDetector.NodeStop | ai_orchestrator/execution/error_detector.py:485-491 | The frame scan stops at the first line in the window that is neither blank nor a frame, or at the window's end. |
| ErrorDetector.NodeFramesSpec | ai_orchestrator/execution/error_detector.py:484-491 | The collected frames are exactly the frame lines before the stopping line, in order: blank lines are skipped and nothing after the stop is taken. |
| ErrorDetector.ExtractStackTrace | ai_orchestrator/execution/error_detector.py:467-495 | A header found by the backward scan, with start > 0, gives the joined lines from the header to the scan's end. Otherwise the result is Some iff the error line opens a Node trace and at least one "at" frame follows it, and it is then the error line joined with its frames. |
| ErrorDetector.NodeTraceHasSeveralLines | ai_orchestrator/execution/error_detector.py:492-493 | A Node-style trace that is reported spans at least two lines. |
| ErrorDetector.FirstStackTrace | ai_orchestrator/execution/error_detector.py:376-390 | `extract_stack_trace` gives None iff no line of the output starts a trace. |
| ErrorDetector.DetectUpToFromLines | ai_orchestrator/execution/error_detector.py:331-355 | Every error built from the first n lines comes from one of those lines. |
| ErrorDetector.CombinedLines | ai_orchestrator/execution/error_detector.py:326-329 | The combined output `output + "\n" + stderr` splits into at least two lines. |
| ErrorDetector.ParseErrorLogs | ai_orchestrator/execution/error_detector.py:316-358 | The method's loop computes the parsed-errors function: classify each line, then deduplicate. |
| ErrorDetector.DetectUpToHas | ai_orchestrator/execution/error_detector.py:331-355 | Every line among the first n with a known category contributes its error. |
| ErrorDetector.DedupFromCovers | ai_orchestrator/execution/error_detector.py:502-507 | Deduplication loses no message: every input error's normalised message was seen before or is carried by a kept error. |
| ErrorDetector.ParsedErrorsComplete | ai_orchestrator/execution/error_detector.py:316-358 | Every line of the combined output with a known category is reported, or an error with the same normalised message is. |
| ErrorDetector.ParsedErrorsWellFormed | ai_orchestrator/execution/error_detector.py:331-358 | Each reported error comes from one line of the combined output. That line's category is not UNKNOWN, its stripped text is the message, and the error carries that category's suggestions and the line's context window. No two reported errors share a normalised message. |
| ErrorDetector.ReplaceDigitRuns | ai_orchestrator/execution/error_detector.py:504 | The normalised message holds no digit; `ErrorDetector.ReplaceDigitRunsDigitFree` and `ErrorDetector.ReplaceDigitRunsConcat` state what it keeps and how each run collapses. |
| ErrorDetector.ReplaceDigitRunsDigitFree | ai_orchestrator/execution/error_detector.py:504 | A message without digits normalises to itself. |
| ErrorDetector.ReplaceDigitRunsConcat | ai_orchestrator/execution/error_detector.py:504 | A whole run of digits, with no digit just before or after it, becomes one "N", and the text on each side is normalised on its own. |
| ErrorDetector.DigitRunsCollapse | ai_orchestrator/execution/error_detector.py:504 | Two messages that differ only in one whole run of digits ("line 10", "line 42") normalise alike. |
| ErrorDetector.DedupDistinct | ai_orchestrator/execution/error_detector.py:497-509 | No two kept errors share a normalised message, and every kept error is an input error. |
| ErrorDetector.DedupKeepsFirstOccurrences | ai_orchestrator/execution/error_detector.py:502-507 | The first occurrence of every normalised message is kept. |
| ErrorDetector.DedupSubsequence | ai_orchestrator/execution/error_detector.py:497-509 | The output is an order-preserving subsequence of the input. |
| ErrorDetector.DedupIdempotent | ai_orchestrator/execution/error_detector.py:497-509 | Deduplicating twice equals deduplicating once. |
| ErrorDetector.DeduplicateErrors | ai_orchestrator/execution/error_detector.py:497-509 | The loop with its seen set computes the deduplication function. |
| ErrorDetector.KeyIndex | ai_orchestrator/execution/error_detector.py:371-373 | The dictionary lookup finds the bucket of key c, and no earlier bucket has that key. |
| ErrorDetector.AddToBucketKeys | ai_orchestrator/execution/error_detector.py:371-373 | One insertion appends a new category as the last key and keeps the order of existing keys. |
| ErrorDetector.AddToBucketEntries | ai_orchestrator/execution/error_detector.py:371-373 | One insertion grows only its category's bucket, by the error at its end. |
| ErrorDetector.CategorizePartition | ai_orchestrator/execution/error_detector.py:360-374 | The keys are the categories present, in order of first appearance. Each bucket holds exactly its category's errors, in input order. |
| ErrorDetector.BucketStep | ai_orchestrator/execution/error_detector.py:370-373 | One loop step keeps "each bucket is its category's errors so far". |
| ErrorDetector.CategoriesInOrderDistinct | ai_orchestrator/execution/error_detector.py:371-372 | Keys are distinct, and each key is the category of some input error. |
| ErrorDetector.CategorizeEachErrorOnce | ai_orchestrator/execution/error_detector.py:360-374 | Every input error sits only in its own category's bucket, as many times as it occurs in the input, and keys are distinct. |
| ErrorDetector.CategorizeErrors | ai_orchestrator/execution/error_detector.py:360-374 | The method's loop computes the grouping function. |
| ErrorDetector.NpmHint | ai_orchestrator/execution/error_detector.py:415-421 | The npm hint contributes at most one suggestion; which one, and when, is stated by `ErrorDetector.NpmHintNamesModule`. |
| ErrorDetector.NpmHintNamesModule | ai_orchestrator/execution/error_detector.py:415-421 | For "Cannot find module 'm'" the npm hint is `npm install m`, and there is none when m starts with ".". |
| ErrorDetector.PipHint | ai_orchestrator/execution/error_detector.py:423-427 | The pip hint contributes at most one suggestion. |
| ErrorDetector.PipHintNamesTopLevel | ai_orchestrator/execution/error_detector.py:423-427 | For "No module named 'a.b'" the first suggestion is `pip install a`, with no dot in the name. |
| ErrorDetector.SuggestFixes | ai_orchestrator/execution/error_detector.py:392-429 | The result is the pip hint, then the npm hint, then a copy of the category's table entry, then the matching generic hints. The table itself is not changed. |
| ErrorDetector.AppendToolHints | ai_orchestrator/execution/error_detector.py:406-413 | The generic hints are appended in source order. |
| ErrorDetector.PrependModuleHints | ai_orchestrator/execution/error_detector.py:415-427 | The npm hint is inserted at the front, then the pip hint in front of it. |
| ErrorDetector.GenerateErrorReport | ai_orchestrator/execution/error_detector.py:511-550 | An empty list gives "No errors detected." Otherwise the report counts all errors and has one section per category, in order of first appearance. |
| Files.StMode | ai_orchestrator/execution/fix_strategies.py:488 | `st_mode` modulo the permission range gives the node's permission bits back. |
| Files.Chmod | ai_orchestrator/execution/fix_strategies.py:489 | `os.chmod` changes only the permission bits of that one path. |
| Files.CopyFile | ai_orchestrator/execution/fix_strategies.py:574 | `shutil.copy` adds or replaces only the destination, with the source's content and permission bits. |
| Files.ReadText | ai_orchestrator/execution/test_executor.py:152-156 | `read_text` succeeds iff the path is a readable file. |
| Files.ReadJson | ai_orchestrator/execution/project_types.py:54-60 | `_read_json` raises iff the path exists but cannot be opened (a directory or an unreadable file). A missing path is None. A document comes only from parsing the file's content. |
| FixStrategies.DefaultConfidencesInRange | ai_orchestrator/execution/fix_strategies.py:59-203 | There are 16 default strategies, each with confidence in [0, 1]. Confidence is kept in hundredths. |
| FixStrategies.FixStrategyRegistry.constructor | ai_orchestrator/execution/fix_strategies.py:55-57 | A new registry holds the default strategies in registration order. |
| FixStrategies.FixStrategyRegistry.Register | ai_orchestrator/execution/fix_strategies.py:205-207 | `register` appends at the end and leaves the earlier strategies unchanged. |
| FixStrategies.Applicable | ai_orchestrator/execution/fix_strategies.py:213-216 | The filter keeps exactly the strategies whose categories include the error's and whose confidence reaches the minimum. |
| FixStrategies.SortByConfidence | ai_orchestrator/execution/fix_strategies.py:218 | The sort is a permutation of its input. |
| FixStrategies.SortSorted | ai_orchestrator/execution/fix_strategies.py:218 | The sort result has non-increasing confidence. |
| FixStrategies.SortStable | ai_orchestrator/execution/fix_strategies.py:218 | For every confidence value, the strategies with that value keep their input order. |
| FixStrategies.FixStrategyRegistry.GetStrategiesForError | ai_orchestrator/execution/fix_strategies.py:209-219 | The result holds exactly the applicable registered strategies, as a permutation of the filter. Confidence is non-increasing, and ties stay in registration order. |
| FixStrategies.FixStrategyRegistry.GetStrategiesByType | ai_orchestrator/execution/fix_strategies.py:221-223 | The result holds exactly the strategies of that type, as a subsequence of the registry. |
| FixStrategies.FirstPackageSpec | ai_orchestrator/execution/fix_strategies.py:233-248 | A pattern whose capture starts with "." is skipped. The result is the package name from the first pattern with a non-relative capture, and None when there is no such pattern. |
| FixStrategies.NpmPackageNeverRelative | ai_orchestrator/execution/fix_strategies.py:230-248 | `extract_missing_npm_package` never returns a name starting with ".". |
| FixStrategies.ScopedPackageName | ai_orchestrator/execution/fix_strategies.py:245-246 | A scoped `@s/p/x` gives `@s/p`. |
| FixStrategies.UnscopedPackageName | ai_orchestrator/execution/fix_strategies.py:247 | An unscoped `p/x` gives `p`. |
| FixStrategies.PythonModuleIsTopLevel | ai_orchestrator/execution/fix_strategies.py:251-264 | The result is None iff no pattern matches. Otherwise it is the captured name up to its first ".". |
| FixStrategies.ExtractorsFirstMatch | ai_orchestrator/execution/fix_strategies.py:357-370 | The port, path and variable extractors each return the capture of the first matching pattern. Path (:461-473) and variable (:613-626) give None iff no pattern matches; a port needs a matching pattern. |
| FixStrategies.FixFilePermissions | ai_orchestrator/execution/fix_strategies.py:475-509 | A missing path or a chmod error fails and changes nothing. Success changes only that path's mode and records the old `st_mode` for rollback. |
| FixStrategies.FixDirectoryPermissions | ai_orchestrator/execution/fix_strategies.py:511-545 | The same as the file fixer, except that a path that is not a directory also fails without change. |
| FixStrategies.FixPermissions | ai_orchestrator/execution/fix_strategies.py:475-545 | The common body of both permission fixers, with its three outcomes. |
| FixStrategies.ModeRollbackRestores | ai_orchestrator/execution/fix_strategies.py:488-495 | Applying the recorded rollback after the chmod gives the original filesystem back. |
| FixStrategies.FirstCopyableTemplateSpec | ai_orchestrator/execution/fix_strategies.py:589-604 | The fallback template is the first of the list whose copy to `.env` succeeds, and None when every copy raises or no template exists. |
| FixStrategies.UnwritableDirCopiesNothing | ai_orchestrator/execution/fix_strategies.py:589-602 | When no entry can be created in the project directory, every fallback copy raises and no template is chosen. |
| Files.CopyError | ai_orchestrator/execution/fix_strategies.py:581-586 | When the source can be read, the copy's error names the destination. |
| FixStrategies.CreateEnvFromExample | ai_orchestrator/execution/fix_strategies.py:551-611 | An existing `.env` fails with no change. Otherwise `.env.example`, or the first other template, is copied to `.env`, and `created_file` is recorded for rollback. A copy fails when the template is a directory or unreadable, or when the project directory is missing, not a directory or not writable. A failed `.env.example` copy fails with "Error copying file: …" and no change. A failed fallback copy moves on to the next template, and with none left it fails with no change. |
| FixStrategies.CreatedFileRollbackRestores | ai_orchestrator/execution/fix_strategies.py:574-580 | Removing the created `.env` gives the original filesystem back. |
| FixStrategies.DetectFixType | ai_orchestrator/execution/fix_strategies.py:632-646 | The result is None iff the message mentions none of indentation, unexpected token, unterminated, or missing plus a bracket. Otherwise it is one of the four tags. |
| FixStrategies.FixerCoverage | ai_orchestrator/execution/fix_strategies.py:668-706 | `can_auto_fix` and `requires_ai_fix` never both hold. A fixer exists iff the category is one of the six mapped ones, and auto-fixable errors have a non-syntax fixer. |
| FixStrategies.FixerCollection.constructor | ai_orchestrator/execution/fix_strategies.py:668-674 | A new collection holds a fresh default registry. |
| TestExecutor.SuiteCountsCoverNonPending | ai_orchestrator/execution/test_executor.py:44-61 | passed + failed + skipped equals the number of non-PENDING tests, because failed counts FAILED and ERROR. |
| TestExecutor.CountWhereUnion | ai_orchestrator/execution/test_executor.py:55-57 | Counting two disjoint status sets adds up. |
| TestExecutor.JsFramework | ai_orchestrator/execution/test_executor.py:130-137 | A JS framework is found iff vitest, jest or mocha is a dependency. |
| TestExecutor.PackageDependenciesDecide | ai_orchestrator/execution/test_executor.py:123-137 | Vitest is preferred, then jest, then mocha, from the merged dependency maps. |
| TestExecutor.ProbeRaisesOnlyForDjango | ai_orchestrator/execution/test_executor.py:142-158 | Probing one marker raises iff it is Django's, the marker exists, and `manage.py` exists but cannot be read. |
| TestExecutor.ProbeRowSpec | ai_orchestrator/execution/test_executor.py:143-158 | A framework's markers all miss, or the row ends as its first marker that does not miss. |
| TestExecutor.ScanIndicatorsSpec | ai_orchestrator/execution/test_executor.py:142-158 | The scan finds nothing iff every row misses. Otherwise it returns the first row, in table order, that hits or raises, and all earlier rows missed. |
| TestExecutor.DetectRaisesOnManagePy | ai_orchestrator/execution/test_executor.py:113-170 | Detection raises iff no dependency decides, the five marker rows before Django's all miss, and `manage.py` exists but cannot be read. |
| TestExecutor.DetectNeverUnittest | ai_orchestrator/execution/test_executor.py:113-174 | Detection never yields UNITTEST. |
| TestExecutor.FoundMeansKnown | ai_orchestrator/execution/test_executor.py:113-174 | With no JS test dependency, a test file or a pytest config file gives PYTEST. Any marker present rules out UNKNOWN, and a JS test dependency gives a framework other than UNKNOWN. |
| TestExecutor.ParsePytestOutput | ai_orchestrator/execution/test_executor.py:340-377 | total = passed + failed + skipped + errors. Success iff the summary matched, failed == 0 and errors == 0. Missing counts are 0. There is one suite with one case per test line. |
| TestExecutor.ParseJestOutput | ai_orchestrator/execution/test_executor.py:379-406 | The counts come from the summary, and total is taken from "N total", not summed. Success iff the summary matched and failed == 0. There is one suite per suite line. |
| TestExecutor.ParseMochaOutput | ai_orchestrator/execution/test_executor.py:408-423 | Missing counts are 0. total = passed + failed + pending. Success iff failed == 0. |
| TestExecutor.ParseVitestOutput | ai_orchestrator/execution/test_executor.py:425-450 | total = passed + failed in both branches. Success iff failed == 0. |
| TestExecutor.ParseUnittestOutput | ai_orchestrator/execution/test_executor.py:452-474 | "OK" gives success with passed = total. Otherwise a FAILED line gives passed = total - failures - errors, and the run is not a success. |
| TestExecutor.ParseDjangoOutput | ai_orchestrator/execution/test_executor.py:476-481 | The result is the unittest parser's result for the same output, with framework DJANGO. |
| TestExecutor.FirstCount | ai_orchestrator/execution/test_executor.py:488-501 | The generic count is the first matching pattern's number, or 0. |
| TestExecutor.ParseGenericOutput | ai_orchestrator/execution/test_executor.py:483-505 | total = passed + failed. Success iff failed == 0 and passed > 0. |
| TestExecutor.ParseTestResults | ai_orchestrator/execution/test_executor.py:265-285 | The result names the requested framework and meets that framework's parser contract, the generic one for UNKNOWN. For pytest, mocha, vitest and the generic parser the total is the sum of the counts. |
| TestExecutor.Truncate | ai_orchestrator/execution/test_executor.py:234-236 | Longer output keeps its first `max_output_size` characters followed by the marker. Shorter output is unchanged. |
| TestExecutor.TestExecutor.RunTests | ai_orchestrator/execution/test_executor.py:176-263 | None (the source raises) iff framework detection raises. With no resolvable command it returns a failed result with exit code -1 without running anything. A completed run gives a result the framework's parser contract allows for the truncated output, with success replaced by `exit_code == 0`. A timeout or crash gives a failed result with exit code -1. |
| ProjectTypes.ProjectHandlersOrder | ai_orchestrator/execution/project_types.py:505-518 | The sorted registry is nextjs, react, django, flask, nodejs, python, generic, in non-increasing priority. |
| ProjectTypes.FirstDetectedSpec | ai_orchestrator/execution/project_types.py:521-527 | The scan returns the first handler that raises or detects, and every earlier handler neither raised nor detected. A list containing the generic handler always yields one. |
| ProjectTypes.DetectProjectTypeFirstMatch | ai_orchestrator/execution/project_types.py:460-462 | Detection raises iff `package.json` exists but cannot be opened. Otherwise it returns a handler that detects, and no earlier handler in priority order does. |
| ProjectTypes.JsDetection | ai_orchestrator/execution/project_types.py:135-203 | Next.js and React raise together, exactly when `package.json` exists but cannot be opened. A missing or malformed `package.json` matches neither. React iff "react" is in dependencies or devDependencies and "next" is in neither. Next.js iff "next" is in dependencies. Never both. |
| ProjectTypes.FirstExistingSpec | ai_orchestrator/execution/project_types.py:262-268 | The entry point is the first existing candidate. |
| ProjectTypes.GetConfig | ai_orchestrator/execution/project_types.py:41-45 | `get_config` raises iff the handler reads `package.json` (Next.js, React, Node.js) and it exists but cannot be opened. Otherwise the configuration names its handler's type, the root and its error patterns. |
| ProjectTypes.NodeJsRunPrecedence | ai_orchestrator/execution/project_types.py:73-111 | The configuration is None iff `package.json` cannot be opened. Otherwise the run command is "npm start", else "node main", else "npm run dev", else None. A missing or malformed `package.json` counts as `{}`. |
| ProjectTypes.PythonConfigRules | ai_orchestrator/execution/project_types.py:260-292 | The entry point is the first of main.py, app.py, run.py, `__main__.py` that exists. The run command is "python entry" iff there is one. Install precedence is requirements.txt, then pyproject.toml, then Pipfile. |
| ProjectTypes.FlaskEnvironment | ai_orchestrator/execution/project_types.py:354-376 | `environment == {"FLASK_APP": entry}`, with the entry point defaulting to app.py. |
| ProjectTypes.GenericRunCommand | ai_orchestrator/execution/project_types.py:464-489 | The run command follows the entry point's extension: python, node or bash. |
| Runner.OutputCapture.constructor | ai_orchestrator/execution/project_runner.py:54-59 | A new capture is empty and valid. |
| Runner.OutputCapture.AddStdout | ai_orchestrator/execution/project_runner.py:61-65 | A line is stored only while the shared size is below the maximum, and the size then grows by its length. The other stream is unchanged. |
| Runner.OutputCapture.AddStderr | ai_orchestrator/execution/project_runner.py:67-71 | The same for stderr. |
| Runner.OutputCapture.CapturedLength | ai_orchestrator/execution/project_runner.py:73-81 | The two getters' lengths add up to the size counter. |
| Runner.CaptureKeepsEarliest | ai_orchestrator/execution/project_runner.py:61-71 | The earliest lines are kept. Storage stops only once the size reaches the maximum. The size stays below the maximum plus the last stored line. |
| Runner.ProjectRunner.CaptureOutput | ai_orchestrator/execution/project_runner.py:283-326 | Draining a feed gives each stream's stored lines, in arrival order, up to the point where the capture fills. |
| Runner.ExecuteStatusMapping | ai_orchestrator/execution/project_runner.py:428-467 | Exit 0 gives SUCCESS and any other exit FAILED. A timeout gives TIMEOUT with exit code -1. |
| Runner.ProjectRunner.ExecuteCommand | ai_orchestrator/execution/project_runner.py:394-467 | One execution follows the status mapping and clears the current process on every path. |
| Runner.ResolveCommand | ai_orchestrator/execution/project_runner.py:231-235 | Explicit command, then `run_command`, then `dev_command`. Empty strings count as absent. |
| Runner.MergeEnv | ai_orchestrator/execution/project_runner.py:238-242 | The OS environment, overridden by the configuration's, overridden by the caller's. |
| Runner.SetupEnvironment | ai_orchestrator/execution/project_runner.py:127-178 | Setup succeeds iff there is no install command, or the install completes with code 0. |
| Runner.KeepTail | ai_orchestrator/execution/project_runner.py:339-342 | Each stream keeps its last `error_log_size_limit` characters. |
| Runner.DetectedErrorsAreCritical | ai_orchestrator/execution/project_runner.py:328-344 | Every detected error has severity "error". |
| Runner.ProjectRunner.DetectErrors | ai_orchestrator/execution/project_runner.py:328-344 | The method computes the detected-errors function. |
| Runner.Downgrade | ai_orchestrator/execution/project_runner.py:275-279 | SUCCESS becomes FAILED iff there is a critical error. No other status changes. |
| Runner.RetrySpec | ai_orchestrator/execution/project_runner.py:245-270 | At most `max_retries` attempts. The cancel flag is checked before each one and yields CANCELLED with "Execution cancelled". Only SUCCESS or TIMEOUT stops early. The result records the last attempt. |
| Runner.RunGates | ai_orchestrator/execution/project_runner.py:219-235 | A failed setup gives FAILED/"Setup failed" with its parsed errors, without running. No command gives FAILED/"No run command available". |
| Runner.FinishVerdict | ai_orchestrator/execution/project_runner.py:272-281 | After the loop, errors are detected and only a SUCCESS status is downgraded. |
| Runner.RetryVerdict | ai_orchestrator/execution/project_runner.py:245-270 | From a result that is neither a success nor cancelled, the loop ends in SUCCESS only after a successful attempt, and in CANCELLED iff it was cancelled. |
| Runner.LoopVerdict | ai_orchestrator/execution/project_runner.py:245-270 | The same for the attempts of a resolved command. |
| Runner.AttemptOfStatus | ai_orchestrator/execution/project_runner.py:251-263 | An attempt is never CANCELLED, and a SUCCESS attempt exited with 0. |
| Runner.RunVerdict | ai_orchestrator/execution/project_runner.py:180-281 | A SUCCESS result has no errors and comes from a resolved command whose last attempt exited with 0. A CANCELLED result has no errors and says "Execution cancelled". There are at most `max_retries` attempts. |
| Runner.ProjectRunner.constructor | ai_orchestrator/execution/project_runner.py:87-114 | The settings are stored, with no current process and no cancel. |
| Runner.ProjectRunner.Cancel | ai_orchestrator/execution/project_runner.py:379-392 | `cancel` sets the flag. |
| Runner.ProjectRunner.RetryLoop | ai_orchestrator/execution/project_runner.py:245-270 | The retry loop computes the retry function. |
| Runner.ProjectRunner.RunProject | ai_orchestrator/execution/project_runner.py:180-281 | `run_project` clears the cancel flag, detects the handler, takes its configuration when none is given, and computes the run outcome. It returns None where detection or `get_config` raises. |
| Runner.RunProjectRaises | ai_orchestrator/execution/project_runner.py:203-210 | `run_project` raises iff `package.json` exists but cannot be opened. Otherwise the result names the detected type and carries the given configuration, or the detected handler's. |
| Loop.HeadEquality | ai_orchestrator/execution/verification_loop.py:429 | Two messages cut to 100 characters agree iff they are equal or share their first 100 characters. |
| Loop.ErrorHashIdentity | ai_orchestrator/execution/verification_loop.py:421-432 | Two errors have the same hash iff category, file, line and the first 100 characters of the message agree. |
| Loop.AttemptWithinCap | ai_orchestrator/execution/verification_loop.py:287-332 | An error at the cap is skipped with the counters unchanged. Otherwise its count rises by exactly 1 and its hash is seen, so no count exceeds the cap. The attempt raises iff the error is below the cap and `analyze_error`/`generate_fix`, or `apply_fix` on a confident fix, raises; the raised count stays raised. A fix below the confidence threshold is recorded as not applied, and only a fix at or above it is applied. |
| Loop.FixAllTallies | ai_orchestrator/execution/verification_loop.py:254-262 | successful + failed == number of attempts, with successful counting the successful attempts. Each attempt is for an error of the cycle. The cap is kept. |
| Loop.FixAllStep | ai_orchestrator/execution/verification_loop.py:255-262 | One pass of the fix loop tallies one attempt, unless an earlier attempt raised. |
| Loop.FixAllRaised | ai_orchestrator/execution/verification_loop.py:255-262 | Once an attempt raises, no later error is attempted. |
| Loop.CycleShape | ai_orchestrator/execution/verification_loop.py:211-285 | A cycle is numbered k and keeps its execution. Its fix counts add up. Status is "errors_found" iff the execution is neither SUCCESS nor TIMEOUT, with that execution's errors. Status is "success" iff the execution succeeded and, when tests run, they passed. Otherwise there are no errors and the counters are unchanged. |
| Loop.CycleRaises | ai_orchestrator/execution/verification_loop.py:222-270 | A cycle raises iff the run raises, a fix attempt on the run's errors raises, or tests are enabled, the run succeeded, and the test run raises or fails. The counters change only through the fix step, and keep what it left even when it raised. |
| Loop.TrendSpec | ai_orchestrator/execution/verification_loop.py:365-385 | UNKNOWN iff fewer than 2 entries. Otherwise IMPROVING, REGRESSING or STALLED as the last count is below, above or equal to the first of the last three. |
| Loop.Recent | ai_orchestrator/execution/verification_loop.py:370 | The window is the last min(n, 3) counts. |
| Loop.ProgressedCounts | ai_orchestrator/execution/verification_loop.py:342-363 | total_cycles rises by 1, and the history gains the cycle's error count. total_errors_found and unique + repeated each rise by that count. |
| Loop.SeenCountExtremes | ai_orchestrator/execution/verification_loop.py:355-360 | All errors seen counts all as repeated, and none seen counts none. |
| Loop.SignatureOrderFree | ai_orchestrator/execution/verification_loop.py:413-419 | Signatures ignore error order, and are empty iff the cycle has no errors. |
| Loop.HashesPermute | ai_orchestrator/execution/verification_loop.py:415-418 | Permuted errors give permuted hashes. |
| Loop.InfiniteLoopSpec | ai_orchestrator/execution/verification_loop.py:387-411 | False with fewer than three cycles. True when the last three cycles share a non-empty error multiset. |
| Loop.DecisionWithoutErrors | ai_orchestrator/execution/verification_loop.py:434-475 | A success cycle, or one with no errors, stops with "success". |
| Loop.EmptyLastNotRegressing | ai_orchestrator/execution/verification_loop.py:365-385 | A last count of 0 is never REGRESSING. |
| Loop.EmptyLastNotStuck | ai_orchestrator/execution/verification_loop.py:387-411 | A last cycle with no errors is never stuck. |
| Loop.DecisionWithErrors | ai_orchestrator/execution/verification_loop.py:456-469 | Continuing needs an error below the cap. A non-success cycle whose errors are all at the cap stops with stuck, regressing or needs-help. |
| Loop.ErrorCountsMatch | ai_orchestrator/execution/verification_loop.py:349 | The history holds each cycle's error count. |
| Loop.FreshWellFormed | ai_orchestrator/execution/verification_loop.py:84-137 | A new loop is NOT_STARTED, with no cycles, and satisfies the loop invariant. |
| Loop.RecordedWellFormed | ai_orchestrator/execution/verification_loop.py:177-186 | Recording a cycle keeps the loop invariant. |
| Loop.StepWellFormed | ai_orchestrator/execution/verification_loop.py:165-198 | One pass of the main loop keeps the loop invariant. |
| Loop.RunWellFormed | ai_orchestrator/execution/verification_loop.py:157-209 | The whole run keeps the loop invariant: counts within the cap, fix counts adding up, and the history matching the cycles. |
| Loop.StepCycles | ai_orchestrator/execution/verification_loop.py:165-177 | A pass appends at most one cycle, numbered k, with setup only on cycle 1. |
| Loop.RunCycles | ai_orchestrator/execution/verification_loop.py:165-205 | A run appends at most `max_cycles` cycles, numbered 1.. consecutively, and keeps the earlier ones. |
| Loop.StoppedStatus | ai_orchestrator/execution/verification_loop.py:189-202 | A stop gives SUCCESS only after a success or error-free cycle, and STUCK only when a loop is detected. NEEDS_HUMAN_HELP needs every error at the cap, and MAX_RETRIES needs `max_cycles` cycles. A regressing stop below the maximum stays RUNNING. |
| Loop.StepWithStatus | ai_orchestrator/execution/verification_loop.py:165-205 | A cancel ends CANCELLED before the cycle runs. An exception ends FAILED with no new cycle, keeping the counters the cycle's fix attempts had raised. Every other ending is justified as in StoppedStatus. |
| Loop.RunStatus | ai_orchestrator/execution/verification_loop.py:157-209 | The final status of any run is one of those justified endings. |
| Loop.MostCommonAt | ai_orchestrator/execution/verification_loop.py:588 | `max` by count picks the first entry with the largest count. |
| Loop.CategoryCountsSpec | ai_orchestrator/execution/verification_loop.py:582-585 | A category is a key iff some error has it, and its count is the number of its errors. |
| Loop.MostCommonSpec | ai_orchestrator/execution/verification_loop.py:587-591 | The most common category's count is its number of errors, at least that of any other category present. |
| Loop.CategoryAdviceSpec | ai_orchestrator/execution/verification_loop.py:587-616 | Dependency advice appears iff some error is DEPENDENCY. A most-common line appears iff there were errors, and it names a maximum. |
| Loop.RecommendationsSpec | ai_orchestrator/execution/verification_loop.py:553-625 | SUCCESS gives only the working message. Otherwise each status line appears iff its status holds, and the roll-back line appears iff the trend is REGRESSING. |
| Loop.RecommendationsCategories | ai_orchestrator/execution/verification_loop.py:581-616 | The category advice sits between the status lines and the trend line. |
| Loop.FixHistoryTallied | ai_orchestrator/execution/verification_loop.py:632-637 | The fix history has one entry per successful or failed fix. |
| Loop.VerificationLoop.constructor | ai_orchestrator/execution/verification_loop.py:84-137 | A new loop has the fresh state. |
| Loop.VerificationLoop.Cancel | ai_orchestrator/execution/verification_loop.py:627-630 | `cancel` sets the flag. |
| Loop.VerificationLoop.AttemptFix | ai_orchestrator/execution/verification_loop.py:287-332 | The method computes one capped attempt from the old counters, and whether the auto-fixer raised. |
| Loop.VerificationLoop.FixErrors | ai_orchestrator/execution/verification_loop.py:254-262 | The fix loop computes the tallied attempts over the cycle's errors, stopping at the first attempt that raises. |
| Loop.VerificationLoop.RunSingleCycle | ai_orchestrator/execution/verification_loop.py:211-285 | The method computes the cycle function: the cycle, or None where it raises, with the counters its fix attempts left in both cases. |
| Loop.VerificationLoop.UpdateProgress | ai_orchestrator/execution/verification_loop.py:342-363 | The new progress is the progress function of the old. |
| Loop.VerificationLoop.ShouldContinue | ai_orchestrator/execution/verification_loop.py:434-475 | The method computes the decision function. |
| Loop.VerificationLoop.CountCategories | ai_orchestrator/execution/verification_loop.py:582-585 | The nested loop computes the per-category counts of all errors. |
| Loop.VerificationLoop.AdviseOnCategories | ai_orchestrator/execution/verification_loop.py:587-616 | The category advice for the counts. |
| Loop.VerificationLoop.GenerateRecommendations | ai_orchestrator/execution/verification_loop.py:553-625 | The method computes the recommendations function. |
| Loop.VerificationLoop.GetFixHistory | ai_orchestrator/execution/verification_loop.py:632-637 | The fix history in cycle order. |
| Loop.VerificationLoop.RunDevelopmentCycle | ai_orchestrator/execution/verification_loop.py:139-209 | The new state is the run function of the old state. The report carries the final status, progress, cycles, the last execution and test results of this run, and the recommendations. |
| Loop.PassRecorded | ai_orchestrator/execution/verification_loop.py:179-183 | The final results are updated only by a cycle that has them. |
| Router.ParseProvider | ai_orchestrator/router.py:87-89 | A name parses to the provider with that value, and to None when no provider has it. |
| Router.KnownProviders | ai_orchestrator/router.py:87-89 | It keeps the known provider names only. |
| Router.KnownProvidersConcat | ai_orchestrator/router.py:87-89 | Filtering keeps input order. |
| Router.TaskRouter.constructor | ai_orchestrator/router.py:87-89 | The available models are the known names, in input order. |
| Router.TaskPatternsRows | ai_orchestrator/router.py:35-73 | The pattern table lists every type but GENERAL, in enum order. |
| Router.TaskRouter.DetectTaskType | ai_orchestrator/router.py:91-108 | GENERAL iff every score is 0. Otherwise the result has the maximum score, and every earlier type scores strictly less. |
| Router.TaskRouter.ScoreTypes | ai_orchestrator/router.py:94-99 | Each type's score is the sum, over its patterns, of the `findall` match counts in the lower-cased text. |
| Router.TaskRouter.GetTargetModel | ai_orchestrator/router.py:110-121 | The specialisation if available, else the first available model, else None where the source raises ValueError. |
| Router.MatchedSpec | ai_orchestrator/router.py:154-159 | A type is collected iff one of its patterns matches, in table order, without repeats. |
| Router.DetectedTypesSpec | ai_orchestrator/router.py:149-161 | The result is never empty, holds exactly the matching types, and is in table order. |
| Router.DetectedGeneral | ai_orchestrator/router.py:161 | GENERAL appears only alone, and exactly when nothing matches. |
| Router.TaskRouter.DetectAllTaskTypes | ai_orchestrator/router.py:149-161 | The method computes the detected-types function. |
| Router.SortByRankSpec | ai_orchestrator/router.py:169-181 | Sorting by `priority_order` gives a sorted permutation. |
| Router.InsertByRankSpec | ai_orchestrator/router.py:178-181 | One insertion keeps the list sorted and adds exactly one element. |
| Router.ContextualPrompt | ai_orchestrator/router.py:205-218 | The prompt is the type's prefix followed by the unchanged task. GENERAL has no prefix. |
| Router.TaskRouter.WorkflowShape | ai_orchestrator/router.py:163-203 | One subtask per type, sorted by `priority_order`, with ids 1..n. The first has no dependencies and subtask k depends on [k-1]. Each is routed to its type's model with the contextual prompt. None iff there are types but no models. |
| Router.TaskRouter.CreateMultiModelWorkflow | ai_orchestrator/router.py:163-203 | The method's loop computes the workflow function. |
| Router.TaskRouter.ChainPhases | ai_orchestrator/router.py:183-201 | The loop builds consecutive chained phases, or raises when no model is available. |
| Router.TaskRouter.PhasesUpToAt | ai_orchestrator/router.py:183-201 | Phase k of the built list is the subtask of the k-th sorted type. |
| Router.TaskRouter.AnalyzeAndRoute | ai_orchestrator/router.py:123-147 | With at most one type it returns one subtask with id 1, no dependencies and the original description as its prompt. Otherwise it returns the workflow. |
| Router.RouteShape | ai_orchestrator/router.py:123-147 | With several types the workflow has one subtask per type, and the first has no dependencies. |

## Left out

- The regular-expression engine: matching is an abstract `Regex` parameter, and the pattern strings are data.
- The MD5 of `_get_error_hash` (ai_orchestrator/execution/verification_loop.py:432): the hash is the key tuple itself. `_get_cycle_error_signature` becomes the multiset of those keys, since sorted-and-joined hash strings compare equal exactly when the multisets do. Two errors whose `"|".join` keys coincide although their fields differ (a file path containing "|", say) get the same hash in the source but distinct keys here. MD5 collisions are not modelled either.
- ASCII-only text: `Text.LowerChar` and `Text.Lower` fold only A-Z, and `Text.IsSpace` (so `Text.Strip`) knows only the ASCII whitespace. `ErrorDetector.IsDigit` and so `ErrorDetector.ReplaceDigitRuns` know only 0-9, where Python's `\d` also matches other Unicode digits.
- A `package.json` that is valid JSON but not an object: the JSON parser parameter yields an object or nothing. The AttributeError that `.get` raises on a list or a string is not modelled.
- Process plumbing: `Popen`, process groups, `killpg`, the reader threads and locks of `capture_output`, and wall-clock timeouts. One execution is a `Launch` value, and the capture is fed a sequence of (stream, line) pairs.
- Subprocess and socket fixers: npm/pip installs, `kill_port_process` and `find_available_port` (ai_orchestrator/execution/fix_strategies.py:267-350, 372-454) are foreign side effects.
- `SyntaxFixer.get_syntax_fix_prompt`: prompt text only.
- Durations, timestamps, `pass_rate`, and the float durations in the unittest parser. Confidences are integer hundredths, used only in comparisons.
- The text of `_generate_summary`, `generate_report`'s markdown, `get_execution_summary`, `generate_test_report` and `export_report`: presentation only. Recommendations are a datatype of messages.
- ios_simulator.py, mcp_server, the CLI and the model clients are not part of this model.
- Loop.VerificationLoop.Cancel: does not also cancel the runner, because the runner is part of the abstract `World`.
- The concurrent `cancel()` during a run is an input: the cycle or attempt at which the flag is first seen (`cancelAt`).
- Streaming callbacks (`stream_output`, `output_callback`) are left out: they only print.
- ErrorDetector.GenerateErrorReport: states the report's structure, with per-category sections, not its markdown text.
- Runner.SetupEnvironment: states the success flag, not the text of the setup output.
- JSON parsing: the parser is a parameter of `Files.ReadJson`, and malformed JSON is its None.
- ErrorDetector.TracebackEnd: states the bounds of the scan's end, not which line stops it.
