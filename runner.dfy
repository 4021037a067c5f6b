/** Running a project (ai_orchestrator/execution/project_runner.py).

    A run detects the project type, optionally installs dependencies, picks
    the run command, and launches it up to `max_retries` times, stopping at
    the first attempt that does not plainly fail. Each attempt's output goes
    through a bounded `OutputCapture`. The captured output is then scanned
    for errors, and a successful run that printed an error becomes a failure.

    Processes are oracles: an `Installer` answers what the install command
    did, and a `Launcher` answers, per attempt, the interleaved lines the
    process wrote and how it ended. A `cancel()` from another thread is the
    parameter `cancelAt`: the first attempt it precedes. */
module Runner {
  import opened Text
  import opened Files
  import ErrorDetector
  import opened ProjectTypes
  import TestExecutor

  datatype ExecutionStatus = Pending | SettingUp | Running | Success | Failed | Timeout | Cancelled

  /** `ExecutionResult` without its duration, which is wall-clock time. */
  datatype ExecutionResult = ExecutionResult(
    status: ExecutionStatus,
    projectType: string,
    stdout: string,
    stderr: string,
    exitCode: Option<int>,
    errors: seq<ErrorDetector.DetectedError>,
    setupOutput: string,
    config: Option<ProjectConfig>,
    message: string)

  type Env = map<string, string>

  // ---------------------------------------------------------------------
  // Output capture.

  datatype Stream = Out | Err

  /** Lines in the order the reader threads delivered them. */
  type Feed = seq<(Stream, string)>

  /** The total length of the lines of a feed. */
  function Size(f: Feed): nat
  {
    if f == [] then 0 else Size(f[..|f| - 1]) + |f[|f| - 1].1|
  }

  /** The lines of one stream, in arrival order. */
  function Lines(f: Feed, s: Stream): seq<string>
  {
    if f == [] then []
    else Lines(f[..|f| - 1], s) + (if f[|f| - 1].0 == s then [f[|f| - 1].1] else [])
  }

  /** `"".join(lines)`. */
  function Concat(lines: seq<string>): string
  {
    if lines == [] then [] else Concat(lines[..|lines| - 1]) + lines[|lines| - 1]
  }

  lemma {:induction false} ConcatAppend(lines: seq<string>, line: string)
    ensures Concat(lines + [line]) == Concat(lines) + line
  {
    assert (lines + [line])[..|lines|] == lines;
  }

  /** The counter covers both streams: it is the length of everything stored. */
  lemma {:induction false} SizeIsCapturedLength(f: Feed)
    ensures Size(f) == |Concat(Lines(f, Out))| + |Concat(Lines(f, Err))|
  {
    if f != [] {
      var init := f[..|f| - 1];
      var (s, line) := f[|f| - 1];
      SizeIsCapturedLength(init);
      ConcatAppend(Lines(init, s), line);
      if s == Out {
        assert Lines(f, Out) == Lines(init, Out) + [line] && Lines(f, Err) == Lines(init, Err);
      } else {
        assert Lines(f, Err) == Lines(init, Err) + [line] && Lines(f, Out) == Lines(init, Out);
      }
    }
  }

  /** `OutputCapture`: lines are stored while the shared counter is below
      `max_size`; the line that crosses the bound is still stored. */
  class OutputCapture {
    const maxSize: nat
    var stdoutLines: seq<string>
    var stderrLines: seq<string>
    var currentSize: nat
    /** Every stored line with its stream, in arrival order. */
    ghost var stored: Feed

    ghost predicate Valid()
      reads this
    {
      stdoutLines == Lines(stored, Out) && stderrLines == Lines(stored, Err) && currentSize == Size(stored)
    }

    constructor(maxSize: nat)
      ensures Valid() && this.maxSize == maxSize && stored == []
    {
      this.maxSize := maxSize;
      stdoutLines := [];
      stderrLines := [];
      currentSize := 0;
      stored := [];
    }

    method AddStdout(line: string)
      requires Valid()
      modifies this
      ensures Valid()
      ensures old(currentSize) < maxSize ==>
        stdoutLines == old(stdoutLines) + [line] && currentSize == old(currentSize) + |line| &&
        stored == old(stored) + [(Out, line)]
      ensures old(currentSize) >= maxSize ==> stored == old(stored)
      ensures stderrLines == old(stderrLines)
    {
      if currentSize < maxSize {
        stored := stored + [(Out, line)];
        assert stored[..|stored| - 1] == old(stored);
        stdoutLines := stdoutLines + [line];
        currentSize := currentSize + |line|;
      }
    }

    method AddStderr(line: string)
      requires Valid()
      modifies this
      ensures Valid()
      ensures old(currentSize) < maxSize ==>
        stderrLines == old(stderrLines) + [line] && currentSize == old(currentSize) + |line| &&
        stored == old(stored) + [(Err, line)]
      ensures old(currentSize) >= maxSize ==> stored == old(stored)
      ensures stdoutLines == old(stdoutLines)
    {
      if currentSize < maxSize {
        stored := stored + [(Err, line)];
        assert stored[..|stored| - 1] == old(stored);
        stderrLines := stderrLines + [line];
        currentSize := currentSize + |line|;
      }
    }

    function Stdout(): string
      reads this
    {
      Concat(stdoutLines)
    }

    function Stderr(): string
      reads this
    {
      Concat(stderrLines)
    }

    /** The two getters together return exactly what the counter counted. */
    lemma CapturedLength()
      requires Valid()
      ensures |Stdout()| + |Stderr()| == currentSize
    {
      SizeIsCapturedLength(stored);
    }
  }

  /** The first `j >= i` at which the lines before `j` fill the capture. */
  function FirstFull(f: Feed, maxSize: nat, i: nat): (r: nat)
    requires i <= |f|
    ensures i <= r <= |f|
    decreases |f| - i
  {
    if i == |f| || Size(f[..i]) >= maxSize then i else FirstFull(f, maxSize, i + 1)
  }

  /** How many leading lines of a feed an `OutputCapture` keeps. */
  function StoredCount(f: Feed, maxSize: nat): nat
  {
    FirstFull(f, maxSize, 0)
  }

  lemma {:induction false} FirstFullSpec(f: Feed, maxSize: nat, i: nat)
    requires i <= |f|
    ensures forall j :: i <= j < FirstFull(f, maxSize, i) ==> Size(f[..j]) < maxSize
    ensures FirstFull(f, maxSize, i) < |f| ==> Size(f[..FirstFull(f, maxSize, i)]) >= maxSize
    decreases |f| - i
  {
    if i < |f| && Size(f[..i]) < maxSize {
      FirstFullSpec(f, maxSize, i + 1);
    }
  }

  lemma SizePrefixStep(f: Feed, j: nat)
    requires j < |f|
    ensures Size(f[..j + 1]) == Size(f[..j]) + |f[j].1|
    ensures Lines(f[..j + 1], Out) == Lines(f[..j], Out) + (if f[j].0 == Out then [f[j].1] else [])
    ensures Lines(f[..j + 1], Err) == Lines(f[..j], Err) + (if f[j].0 == Err then [f[j].1] else [])
  {
    assert f[..j + 1][..j] == f[..j];
  }

  /** The capture keeps the earliest lines, all of them up to the one that
      reaches the bound: it keeps everything when the bound is never reached,
      and otherwise overshoots the bound by less than the last line kept. */
  lemma CaptureKeepsEarliest(f: Feed, maxSize: nat)
    ensures StoredCount(f, maxSize) <= |f|
    ensures StoredCount(f, maxSize) < |f| ==> Size(f[..StoredCount(f, maxSize)]) >= maxSize
    ensures StoredCount(f, maxSize) > 0 ==>
      Size(f[..StoredCount(f, maxSize)]) < maxSize + |f[StoredCount(f, maxSize) - 1].1|
    ensures Size(f) < maxSize ==> StoredCount(f, maxSize) == |f|
  {
    var n := StoredCount(f, maxSize);
    FirstFullSpec(f, maxSize, 0);
    if n > 0 {
      SizePrefixStep(f, n - 1);
    }
    if Size(f) < maxSize && n < |f| {
      SizeGrows(f, n);
    }
  }

  lemma {:induction false} SizeGrows(f: Feed, j: nat)
    requires j <= |f|
    ensures Size(f[..j]) <= Size(f)
    decreases |f| - j
  {
    if j < |f| {
      SizePrefixStep(f, j);
      SizeGrows(f, j + 1);
    } else {
      assert f[..j] == f;
    }
  }

  // ---------------------------------------------------------------------
  // One execution.

  /** How a launched process ended. */
  datatype Exit = Exited(code: int) | Expired | Raised(error: string)

  /** What a launched process wrote and how it ended. */
  datatype Launch = Launch(feed: Feed, exit: Exit)

  /** The process run for (command, cwd, env) at a given attempt number. */
  type Launcher = (string, string, Env, nat) -> Launch

  /** The install command run by `subprocess.run`, for (command, cwd, env). */
  type Installer = (string, string, Env) -> TestExecutor.Execution

  /** The dictionary `_execute_command` returns, without its duration. */
  datatype Attempt = Attempt(stdout: string, stderr: string, exitCode: int, status: ExecutionStatus)

  /** `_execute_command`'s result for a process that behaved as `p`. */
  function ExecuteSpec(p: Launch, maxOutputSize: nat, timeout: nat): Attempt
  {
    var kept := p.feed[..StoredCount(p.feed, maxOutputSize)];
    var out := Concat(Lines(kept, Out));
    var err := Concat(Lines(kept, Err));
    match p.exit
    case Exited(code) => Attempt(out, err, code, if code == 0 then Success else Failed)
    case Expired => Attempt(out, err + "\nProcess timed out after " + NatToString(timeout) + "s", -1, Timeout)
    case Raised(e) => Attempt(out, err + "\nExecution error: " + e, -1, Failed)
  }

  /** Exit 0 is the only success; a timeout is TIMEOUT with exit code -1;
      everything else is FAILED; an execution is never CANCELLED. */
  lemma ExecuteStatusMapping(p: Launch, maxOutputSize: nat, timeout: nat)
    ensures var a := ExecuteSpec(p, maxOutputSize, timeout);
      (a.status == Success <==> p.exit == Exited(0)) &&
      (a.status == Timeout <==> p.exit.Expired?) &&
      (a.status == Failed <==> !(p.exit == Exited(0) || p.exit.Expired?)) &&
      (p.exit.Exited? ==> a.exitCode == p.exit.code) &&
      (!p.exit.Exited? ==> a.exitCode == -1)
  {
  }

  // ---------------------------------------------------------------------
  // Command, environment and setup.

  /** Python truthiness of an optional string. */
  predicate Truthy(o: Option<string>)
  {
    o.Some? && o.value != ""
  }

  /** `command or config.run_command or config.dev_command`. */
  function ResolveCommand(command: Option<string>, config: ProjectConfig): (r: Option<string>)
    ensures r.None? <==> !Truthy(command) && !Truthy(config.runCommand) && !Truthy(config.devCommand)
    ensures r.Some? ==> r.value != ""
    ensures Truthy(command) ==> r == command
    ensures !Truthy(command) && Truthy(config.runCommand) ==> r == config.runCommand
    ensures !Truthy(command) && !Truthy(config.runCommand) && Truthy(config.devCommand) ==> r == config.devCommand
  {
    if Truthy(command) then command
    else if Truthy(config.runCommand) then config.runCommand
    else if Truthy(config.devCommand) then config.devCommand
    else None
  }

  /** The OS environment, updated by the project's environment and then by
      the caller's. */
  function MergeEnv(os: Env, project: Env, extra: Env): (r: Env)
    ensures r.Keys == os.Keys + project.Keys + extra.Keys
    ensures forall k :: k in extra ==> r[k] == extra[k]
    ensures forall k :: k in project && k !in extra ==> r[k] == project[k]
    ensures forall k :: k in os && k !in project && k !in extra ==> r[k] == os[k]
  {
    os + project + extra
  }

  /** `setup_environment` for a given configuration: success and the output. */
  function SetupEnvironment(setupTimeout: nat, config: ProjectConfig, dir: string, env: Env, os: Env,
                            install: Installer): (r: (bool, string))
    ensures r.0 <==> (!Truthy(config.installCommand) ||
                      (install(config.installCommand.value, dir, MergeEnv(os, config.environment, env)).Completed? &&
                       install(config.installCommand.value, dir, MergeEnv(os, config.environment, env)).returnCode == 0))
  {
    if !Truthy(config.installCommand) then (true, "No installation required")
    else match install(config.installCommand.value, dir, MergeEnv(os, config.environment, env))
      case Completed(out, err, code) =>
        var output := out + "\n" + err;
        if code != 0 then (false, "Setup failed (exit code " + IntToString(code) + "):\n" + output)
        else (true, output)
      case TimedOut => (false, "Setup timed out after " + NatToString(setupTimeout) + " seconds")
      case Crashed(e) => (false, "Setup error: " + e)
  }

  // ---------------------------------------------------------------------
  // Error detection.

  /** `s[-limit:]` applied when `len(s) > limit`. Python reads `-0` as `0`,
      so a limit of 0 keeps the whole string. */
  function KeepTail(s: string, limit: nat): (r: string)
    ensures EndsWith(s, r)
    ensures limit > 0 ==> |r| == ErrorDetector.Min(|s|, limit)
    ensures limit == 0 ==> r == s
  {
    if |s| > limit && limit > 0 then s[|s| - limit..] else s
  }

  /** What `detect_errors` returns. */
  function DetectedErrors(re: Regex, loc: ErrorDetector.LocationSearch, d: ErrorDetector.Detector, limit: nat,
                          stdout: string, stderr: string): seq<ErrorDetector.DetectedError>
  {
    ErrorDetector.ParsedErrors(re, loc, d, KeepTail(stdout, limit), KeepTail(stderr, limit))
  }

  /** Every error the detector reports has severity "error". */
  lemma DetectedErrorsAreCritical(re: Regex, loc: ErrorDetector.LocationSearch, d: ErrorDetector.Detector, limit: nat,
                                  stdout: string, stderr: string)
    ensures forall e :: e in DetectedErrors(re, loc, d, limit, stdout, stderr) ==> e.severity == "error"
  {
    ErrorDetector.ParsedErrorsWellFormed(re, loc, d, KeepTail(stdout, limit), KeepTail(stderr, limit));
  }

  /** A SUCCESS with at least one error of severity "error" becomes FAILED. */
  function Downgrade(status: ExecutionStatus, errors: seq<ErrorDetector.DetectedError>): (r: ExecutionStatus)
    ensures r == Failed <==> status == Failed || (status == Success && exists e :: e in errors && e.severity == "error")
    ensures r != status ==> status == Success && r == Failed
  {
    if |errors| > 0 && status == Success && exists e :: e in errors && e.severity == "error" then Failed else status
  }

  // ---------------------------------------------------------------------
  // The whole run.

  datatype Settings = Settings(
    timeout: nat, setupTimeout: nat, maxRetries: nat, maxOutputSize: nat, errorLogSizeLimit: nat,
    detector: ErrorDetector.Detector)

  /** Whether `cancel()` has been called before attempt `i` starts. */
  predicate CancelledBy(cancelAt: Option<nat>, i: nat)
  {
    cancelAt.Some? && cancelAt.value <= i
  }

  /** The statuses at which the retry loop stops. */
  predicate Final(status: ExecutionStatus)
  {
    status == Success || status == Timeout || status == Cancelled
  }

  /** The result after an attempt has been recorded. */
  function Record(r: ExecutionResult, a: Attempt): ExecutionResult
  {
    r.(stdout := a.stdout, stderr := a.stderr, exitCode := Some(a.exitCode), status := a.status)
  }

  /** What the retry loop leaves from attempt `i` on, where attempt `j`
      would come out as `attempts(j)`: the result, whether the loop returned
      because of a cancellation, and how many commands it launched. */
  function Retry(maxRetries: nat, attempts: nat -> Attempt, cancelAt: Option<nat>, i: nat, r: ExecutionResult)
    : (ExecutionResult, bool, nat)
    decreases maxRetries - i
  {
    if i >= maxRetries then (r, false, 0)
    else if CancelledBy(cancelAt, i) then (r.(status := Cancelled, message := "Execution cancelled"), true, 0)
    else if Final(attempts(i).status) then (Record(r, attempts(i)), false, 1)
    else
      var next := Retry(maxRetries, attempts, cancelAt, i + 1, Record(r, attempts(i)));
      (next.0, next.1, next.2 + 1)
  }

  /** The retry loop makes at most `max_retries` attempts, each one only
      after the previous one did not stop it. It stops early only at a
      final status or on a cancellation, which it reports as CANCELLED before
      the attempt it precedes. Otherwise the result holds the last attempt. */
  lemma {:induction false} RetrySpec(maxRetries: nat, attempts: nat -> Attempt, cancelAt: Option<nat>, i: nat,
                                     r: ExecutionResult)
    requires i <= maxRetries
    ensures var x := Retry(maxRetries, attempts, cancelAt, i, r);
      x.2 <= maxRetries - i &&
      (forall j :: i <= j < i + x.2 ==> !CancelledBy(cancelAt, j)) &&
      (forall j :: i <= j < i + x.2 - 1 ==> !Final(attempts(j).status)) &&
      (x.1 ==> CancelledBy(cancelAt, i + x.2) && x.0.status == Cancelled && x.0.message == "Execution cancelled") &&
      (!x.1 && x.2 < maxRetries - i ==> Final(x.0.status)) &&
      (!x.1 && x.2 > 0 ==> x.0 == Record(r, attempts(i + x.2 - 1))) &&
      (!x.1 && x.2 == 0 ==> x.0 == r)
    ensures var x := Retry(maxRetries, attempts, cancelAt, i, r);
      x.0.projectType == r.projectType && x.0.config == r.config && x.0.errors == r.errors &&
      x.0.setupOutput == r.setupOutput
    decreases maxRetries - i
  {
    if i < maxRetries && !CancelledBy(cancelAt, i) && !Final(attempts(i).status) {
      RetrySpec(maxRetries, attempts, cancelAt, i + 1, Record(r, attempts(i)));
    }
  }

  /** A loop outcome with `k` more launches. */
  function Shift(x: (ExecutionResult, bool, nat), k: nat): (ExecutionResult, bool, nat)
  {
    (x.0, x.1, x.2 + k)
  }

  /** The attempt made at number `j`. */
  function AttemptAt(st: Settings, command: string, dir: string, env: Env, launch: Launcher, j: nat): Attempt
  {
    ExecuteSpec(launch(command, dir, env, j), st.maxOutputSize, st.timeout)
  }

  /** Every attempt of a run, by number. */
  function Attempts(st: Settings, command: string, dir: string, env: Env, launch: Launcher): nat -> Attempt
  {
    (j: nat) => AttemptAt(st, command, dir, env, launch, j)
  }

  /** A fresh result for a project of the given type. */
  function NewResult(projectType: string, config: ProjectConfig): ExecutionResult
  {
    ExecutionResult(Pending, projectType, "", "", None, [], "", Some(config), "")
  }

  /** What `run_project` depends on besides the settings, the project's
      type and its configuration. */
  datatype RunRequest = RunRequest(
    dir: string, command: Option<string>, env: Env, setup: bool,
    os: Env, install: Installer, launch: Launcher, cancelAt: Option<nat>)

  /** Whether the install step runs. */
  predicate SetsUp(config: ProjectConfig, q: RunRequest)
  {
    q.setup && Truthy(config.installCommand)
  }

  function SetupOf(st: Settings, config: ProjectConfig, q: RunRequest): (bool, string)
  {
    SetupEnvironment(st.setupTimeout, config, q.dir, q.env, q.os, q.install)
  }

  /** The result after the install step, when that step did not fail. */
  function AfterSetup(st: Settings, kind: string, config: ProjectConfig, q: RunRequest): ExecutionResult
  {
    var r := NewResult(kind, config);
    if SetsUp(config, q) then r.(status := SettingUp, setupOutput := SetupOf(st, config, q).1) else r
  }

  /** The attempts of a run with the given command. */
  function AttemptsOf(st: Settings, config: ProjectConfig, q: RunRequest, command: string): nat -> Attempt
  {
    Attempts(st, command, q.dir, MergeEnv(q.os, config.environment, q.env), q.launch)
  }

  /** The retry loop's outcome for a run that reached it. */
  function LoopOf(st: Settings, kind: string, config: ProjectConfig, q: RunRequest, command: string)
    : (ExecutionResult, bool, nat)
  {
    Retry(st.maxRetries, AttemptsOf(st, config, q, command), q.cancelAt, 0, AfterSetup(st, kind, config, q))
  }

  /** What follows the retry loop: a cancelled run returns as it is;
      otherwise the output of the last attempt is scanned for errors, which
      can turn a SUCCESS into FAILED. */
  function Finish(st: Settings, re: Regex, loc: ErrorDetector.LocationSearch, x: (ExecutionResult, bool, nat))
    : (ExecutionResult, nat)
  {
    if x.1 then (x.0, x.2)
    else
      var errors := DetectedErrors(re, loc, st.detector, st.errorLogSizeLimit, x.0.stdout, x.0.stderr);
      (x.0.(errors := errors, status := Downgrade(x.0.status, errors)), x.2)
  }

  /** `run_project` for a project of type `kind` with configuration
      `config`: the result, and how many commands were launched. */
  function RunOutcome(st: Settings, re: Regex, loc: ErrorDetector.LocationSearch, kind: string, config: ProjectConfig,
                      q: RunRequest): (ExecutionResult, nat)
  {
    if SetsUp(config, q) && !SetupOf(st, config, q).0 then
      var out := SetupOf(st, config, q).1;
      (NewResult(kind, config).(status := Failed, setupOutput := out, message := "Setup failed",
         errors := ErrorDetector.ParsedErrors(re, loc, st.detector, out, "")), 0)
    else match ResolveCommand(q.command, config)
      case None => (AfterSetup(st, kind, config, q).(status := Failed, message := "No run command available"), 0)
      case Some(command) => Finish(st, re, loc, LoopOf(st, kind, config, q, command))
  }

  /** `run_project`: the result of running with the detected type and its
      configuration (or the given one), `None` where detection or
      `get_config` raises. */
  function RunProjectSpec(st: Settings, re: Regex, loc: ErrorDetector.LocationSearch, t: Tree, parse: JsonParser,
                          config: Option<ProjectConfig>, q: RunRequest): Option<ExecutionResult>
  {
    match DetectProjectType(t, q.dir, parse)
    case None => None
    case Some(handler) =>
      match if config.Some? then config else GetConfig(handler, t, q.dir, parse)
      case None => None
      case Some(cfg) => Some(RunOutcome(st, re, loc, Name(handler), cfg, q).0)
  }

  /** `run_project` raises exactly when `package.json` exists but cannot be
      opened; otherwise the result names the detected type and carries the
      configuration it ran with. */
  lemma RunProjectRaises(st: Settings, re: Regex, loc: ErrorDetector.LocationSearch, t: Tree, parse: JsonParser,
                         config: Option<ProjectConfig>, q: RunRequest)
    ensures RunProjectSpec(st, re, loc, t, parse, config, q).None? <==> PackageJsonRaises(t, q.dir)
    ensures RunProjectSpec(st, re, loc, t, parse, config, q).Some? ==>
      var h := DetectProjectType(t, q.dir, parse).value;
      var r := RunProjectSpec(st, re, loc, t, parse, config, q).value;
      r.projectType == Name(h) && (config.Some? ==> r.config == config) &&
      (config.None? ==> r.config == GetConfig(h, t, q.dir, parse))
  {
    DetectProjectTypeFirstMatch(t, q.dir, parse);
    if !PackageJsonRaises(t, q.dir) {
      var h := DetectProjectType(t, q.dir, parse).value;
      var cfg := if config.Some? then config.value else GetConfig(h, t, q.dir, parse).value;
      RunGates(st, re, loc, Name(h), cfg, q);
    }
  }

  /** A failed install ends the run as FAILED before anything is launched,
      and its output is scanned for errors; a run without any command ends
      as FAILED, also without launching anything. */
  lemma RunGates(st: Settings, re: Regex, loc: ErrorDetector.LocationSearch, kind: string, config: ProjectConfig,
                 q: RunRequest)
    ensures var x := RunOutcome(st, re, loc, kind, config, q);
      (SetsUp(config, q) && !SetupOf(st, config, q).0 ==>
        x.1 == 0 && x.0.status == Failed && x.0.message == "Setup failed" &&
        x.0.setupOutput == SetupOf(st, config, q).1 &&
        x.0.errors == ErrorDetector.ParsedErrors(re, loc, st.detector, SetupOf(st, config, q).1, "")) &&
      (!(SetsUp(config, q) && !SetupOf(st, config, q).0) && ResolveCommand(q.command, config).None? ==>
        x.1 == 0 && x.0.status == Failed && x.0.message == "No run command available")
    ensures RunOutcome(st, re, loc, kind, config, q).0.projectType == kind
    ensures RunOutcome(st, re, loc, kind, config, q).0.config == Some(config)
  {
    match ResolveCommand(q.command, config)
    case None =>
    case Some(command) =>
      RetrySpec(st.maxRetries, AttemptsOf(st, config, q, command), q.cancelAt, 0, AfterSetup(st, kind, config, q));
  }

  /** After the loop, SUCCESS survives only with no error detected, and a
      CANCELLED status only comes from the loop itself. */
  lemma FinishVerdict(st: Settings, re: Regex, loc: ErrorDetector.LocationSearch, x: (ExecutionResult, bool, nat))
    ensures Finish(st, re, loc, x).1 == x.2
    ensures x.1 ==> Finish(st, re, loc, x).0 == x.0
    ensures !x.1 && Finish(st, re, loc, x).0.status == Success ==>
              x.0.status == Success && Finish(st, re, loc, x).0.errors == []
    ensures !x.1 ==> (Finish(st, re, loc, x).0.status == Cancelled <==> x.0.status == Cancelled)
  {
    if !x.1 {
      var errors := DetectedErrors(re, loc, st.detector, st.errorLogSizeLimit, x.0.stdout, x.0.stderr);
      DetectedErrorsAreCritical(re, loc, st.detector, st.errorLogSizeLimit, x.0.stdout, x.0.stderr);
      if errors != [] {
        assert errors[0] in errors;
      }
    }
  }

  /** The retry loop launches at most `max_retries` commands; it ends
      SUCCESS only after an attempt whose process exited 0, and CANCELLED
      only on a cancellation, keeping the errors it started with. */
  lemma LoopVerdict(st: Settings, kind: string, config: ProjectConfig, q: RunRequest, command: string)
    ensures var x := LoopOf(st, kind, config, q, command);
      x.2 <= st.maxRetries &&
      (x.0.status == Success ==> x.2 > 0 && AttemptsOf(st, config, q, command)(x.2 - 1).exitCode == 0) &&
      (x.0.status == Cancelled <==> x.1) &&
      (x.1 ==> x.0.errors == [] && x.0.message == "Execution cancelled")
  {
    var r := AfterSetup(st, kind, config, q);
    var attempts := AttemptsOf(st, config, q, command);
    forall j: nat ensures attempts(j).status != Cancelled && (attempts(j).status == Success ==> attempts(j).exitCode == 0) {
      AttemptOfStatus(st, config, q, command, j);
    }
    RetryVerdict(st.maxRetries, attempts, q.cancelAt, r);
  }

  /** An attempt is never CANCELLED, and it is SUCCESS only with exit code 0. */
  lemma AttemptOfStatus(st: Settings, config: ProjectConfig, q: RunRequest, command: string, j: nat)
    ensures var a := AttemptsOf(st, config, q, command)(j);
      a.status != Cancelled && (a.status == Success ==> a.exitCode == 0)
  {
    var p := q.launch(command, q.dir, MergeEnv(q.os, config.environment, q.env), j);
    assert AttemptsOf(st, config, q, command)(j) == ExecuteSpec(p, st.maxOutputSize, st.timeout);
    ExecuteStatusMapping(p, st.maxOutputSize, st.timeout);
  }

  /** `LoopVerdict` for any attempts that are never CANCELLED and are
      SUCCESS only with exit code 0, from a result that is neither. */
  lemma RetryVerdict(maxRetries: nat, attempts: nat -> Attempt, cancelAt: Option<nat>, r: ExecutionResult)
    requires r.status != Success && r.status != Cancelled && r.errors == []
    requires forall j: nat :: attempts(j).status != Cancelled && (attempts(j).status == Success ==> attempts(j).exitCode == 0)
    ensures var x := Retry(maxRetries, attempts, cancelAt, 0, r);
      x.2 <= maxRetries &&
      (x.0.status == Success ==> x.2 > 0 && attempts(x.2 - 1).exitCode == 0) &&
      (x.0.status == Cancelled <==> x.1) &&
      (x.1 ==> x.0.errors == [] && x.0.message == "Execution cancelled")
  {
    RetrySpec(maxRetries, attempts, cancelAt, 0, r);
    var x := Retry(maxRetries, attempts, cancelAt, 0, r);
    if !x.1 && x.2 > 0 {
      assert x.0.status == attempts(x.2 - 1).status;
    }
  }

  /** At most `max_retries` commands are launched. A run ends SUCCESS only
      when its last attempt exited 0 and no error was detected in its
      output; a cancelled run keeps no errors. */
  lemma RunVerdict(st: Settings, re: Regex, loc: ErrorDetector.LocationSearch, kind: string, config: ProjectConfig,
                   q: RunRequest)
    ensures RunOutcome(st, re, loc, kind, config, q).1 <= st.maxRetries
    ensures var x := RunOutcome(st, re, loc, kind, config, q);
      x.0.status == Success ==>
        x.0.errors == [] && x.1 > 0 && ResolveCommand(q.command, config).Some? &&
        AttemptsOf(st, config, q, ResolveCommand(q.command, config).value)(x.1 - 1).exitCode == 0
    ensures var x := RunOutcome(st, re, loc, kind, config, q);
      x.0.status == Cancelled ==> x.0.errors == [] && x.0.message == "Execution cancelled"
  {
    var x := RunOutcome(st, re, loc, kind, config, q);
    if SetsUp(config, q) && !SetupOf(st, config, q).0 {
      assert x.1 == 0 && x.0.status == Failed;
    } else {
      match ResolveCommand(q.command, config)
      case None =>
        assert x.1 == 0 && x.0.status == Failed;
      case Some(command) =>
        var y := LoopOf(st, kind, config, q, command);
        assert x == Finish(st, re, loc, y);
        LoopVerdict(st, kind, config, q, command);
        FinishedVerdict(st, re, loc, y, AttemptsOf(st, config, q, command));
    }
  }

  /** What `LoopVerdict` says of the loop's outcome `x` carries over to the
      run's outcome after the scan for errors. */
  lemma FinishedVerdict(st: Settings, re: Regex, loc: ErrorDetector.LocationSearch, x: (ExecutionResult, bool, nat),
                        attempts: nat -> Attempt)
    requires x.2 <= st.maxRetries
    requires x.0.status == Success ==> x.2 > 0 && attempts(x.2 - 1).exitCode == 0
    requires x.0.status == Cancelled <==> x.1
    requires x.1 ==> x.0.errors == [] && x.0.message == "Execution cancelled"
    ensures var y := Finish(st, re, loc, x);
      y.1 <= st.maxRetries &&
      (y.0.status == Success ==> y.0.errors == [] && y.1 > 0 && attempts(y.1 - 1).exitCode == 0) &&
      (y.0.status == Cancelled ==> y.0.errors == [] && y.0.message == "Execution cancelled")
  {
    FinishVerdict(st, re, loc, x);
  }

  // ---------------------------------------------------------------------
  // The runner.

  class ProjectRunner {
    const timeout: nat
    const setupTimeout: nat
    const maxRetries: nat
    const maxOutputSize: nat
    const errorLogSizeLimit: nat
    const detector: ErrorDetector.Detector
    /** The command of the process currently running, if any. */
    var currentProcess: Option<string>
    var cancelled: bool

    constructor(timeout: nat, setupTimeout: nat, maxRetries: nat, maxOutputSize: nat, errorLogSizeLimit: nat)
      ensures Current() == Settings(timeout, setupTimeout, maxRetries, maxOutputSize, errorLogSizeLimit,
                                    ErrorDetector.DefaultDetector)
      ensures currentProcess.None? && !cancelled
    {
      this.timeout := timeout;
      this.setupTimeout := setupTimeout;
      this.maxRetries := maxRetries;
      this.maxOutputSize := maxOutputSize;
      this.errorLogSizeLimit := errorLogSizeLimit;
      detector := ErrorDetector.DefaultDetector;
      currentProcess := None;
      cancelled := false;
    }

    /** The runner's settings as a value. */
    function Current(): Settings
    {
      Settings(timeout, setupTimeout, maxRetries, maxOutputSize, errorLogSizeLimit, detector)
    }

    /** `cancel`: raise the flag (terminating the process is not modelled). */
    method Cancel()
      modifies this
      ensures cancelled && currentProcess == old(currentProcess)
    {
      cancelled := true;
    }

    /** `detect_errors`: scan the last `error_log_size_limit` characters of
        each stream. */
    method DetectErrors(re: Regex, loc: ErrorDetector.LocationSearch, stdout: string, stderr: string)
      returns (errors: seq<ErrorDetector.DetectedError>)
      ensures errors == DetectedErrors(re, loc, detector, errorLogSizeLimit, stdout, stderr)
      ensures forall e :: e in errors ==> e.severity == "error"
    {
      var out := KeepTail(stdout, errorLogSizeLimit);
      var err := KeepTail(stderr, errorLogSizeLimit);
      errors := ErrorDetector.ParseErrorLogs(re, loc, detector, out, err);
      DetectedErrorsAreCritical(re, loc, detector, errorLogSizeLimit, stdout, stderr);
    }

    /** The output `capture_output` collects from a process that wrote
        `feed`: each line goes to a fresh capture of `max_output_size`. */
    method CaptureOutput(feed: Feed) returns (out: string, err: string)
      ensures out == Concat(Lines(feed[..StoredCount(feed, maxOutputSize)], Out))
      ensures err == Concat(Lines(feed[..StoredCount(feed, maxOutputSize)], Err))
    {
      var capture := new OutputCapture(maxOutputSize);
      ghost var n := StoredCount(feed, maxOutputSize);
      FirstFullSpec(feed, maxOutputSize, 0);
      var i := 0;
      while i < |feed|
        invariant 0 <= i <= |feed|
        invariant capture.Valid() && capture.maxSize == maxOutputSize
        invariant capture.stored == feed[..ErrorDetector.Min(i, n)]
      {
        var (s, line) := feed[i];
        if i < n {
          assert capture.currentSize == Size(feed[..i]) < maxOutputSize;
          assert feed[..i + 1] == feed[..i] + [feed[i]];
        } else {
          assert capture.stored == feed[..n] && capture.currentSize >= maxOutputSize;
        }
        if s == Out {
          capture.AddStdout(line);
        } else {
          capture.AddStderr(line);
        }
        i := i + 1;
      }
      out := capture.Stdout();
      err := capture.Stderr();
    }

    /** `_execute_command`: capture the process's output and map its ending
        to a status; the current process is cleared on every path. */
    method ExecuteCommand(command: string, cwd: string, env: Env, p: Launch) returns (a: Attempt)
      modifies this
      ensures a == ExecuteSpec(p, maxOutputSize, timeout)
      ensures currentProcess.None? && cancelled == old(cancelled)
    {
      currentProcess := Some(command);
      var out, err := CaptureOutput(p.feed);
      currentProcess := None;
      match p.exit {
        case Exited(code) =>
          a := Attempt(out, err, code, if code == 0 then Success else Failed);
        case Expired =>
          a := Attempt(out, err + "\nProcess timed out after " + NatToString(timeout) + "s", -1, ExecutionStatus.Timeout);
        case Raised(e) =>
          a := Attempt(out, err + "\nExecution error: " + e, -1, Failed);
      }
    }

    /** The retry loop of `run_project`. A `cancel()` from another thread
        takes effect before attempt `cancelAt`. */
    method RetryLoop(command: string, dir: string, env: Env, launch: Launcher, cancelAt: Option<nat>,
                     r0: ExecutionResult, ghost attempts: nat -> Attempt)
      returns (result: ExecutionResult, wasCancelled: bool, ghost launched: nat)
      requires !cancelled
      requires forall j: nat {:trigger launch(command, dir, env, j)} ::
        attempts(j) == ExecuteSpec(launch(command, dir, env, j), maxOutputSize, timeout)
      modifies this
      ensures (result, wasCancelled, launched) == Retry(maxRetries, attempts, cancelAt, 0, r0)
      ensures currentProcess.None? || currentProcess == old(currentProcess)
    {
      ghost var total := Retry(maxRetries, attempts, cancelAt, 0, r0);
      result := r0;
      wasCancelled := false;
      var attempt := 0;
      while attempt < maxRetries
        invariant attempt <= maxRetries && !cancelled && !wasCancelled && (cancelAt.Some? ==> cancelAt.value >= attempt)
        invariant total == Shift(Retry(maxRetries, attempts, cancelAt, attempt, result), attempt)
        invariant currentProcess.None? || currentProcess == old(currentProcess)
      {
        var more;
        result, wasCancelled, more := TryOnce(command, dir, env, launch, cancelAt, attempt, result, attempts);
        if !more {
          launched := if wasCancelled then attempt else attempt + 1;
          return;
        }
        attempt := attempt + 1;
      }
      assert Retry(maxRetries, attempts, cancelAt, attempt, result) == (result, false, 0);
      launched := attempt;
    }

    /** One pass of the retry loop, at attempt number `attempt`: a pending
        cancellation ends the loop as CANCELLED; otherwise the command runs
        once and a final status ends the loop. */
    method TryOnce(command: string, dir: string, env: Env, launch: Launcher, cancelAt: Option<nat>, attempt: nat,
                   r: ExecutionResult, ghost attempts: nat -> Attempt)
      returns (result: ExecutionResult, wasCancelled: bool, more: bool)
      requires !cancelled && attempt < maxRetries && (cancelAt.Some? ==> cancelAt.value >= attempt)
      requires forall j: nat {:trigger launch(command, dir, env, j)} ::
        attempts(j) == ExecuteSpec(launch(command, dir, env, j), maxOutputSize, timeout)
      modifies this
      ensures var before := Retry(maxRetries, attempts, cancelAt, attempt, r);
        if more then !cancelled && !wasCancelled && (cancelAt.Some? ==> cancelAt.value >= attempt + 1) &&
                     before == Shift(Retry(maxRetries, attempts, cancelAt, attempt + 1, result), 1)
        else before == (result, wasCancelled, if wasCancelled then 0 else 1)
      ensures currentProcess.None? || currentProcess == old(currentProcess)
    {
      if cancelAt == Some(attempt) {
        Cancel();
      }
      if cancelled {
        assert CancelledBy(cancelAt, attempt);
        return r.(status := Cancelled, message := "Execution cancelled"), true, false;
      }
      assert !CancelledBy(cancelAt, attempt);
      var a := ExecuteCommand(command, dir, env, launch(command, dir, env, attempt));
      assert a == attempts(attempt);
      result := Record(r, a);
      wasCancelled := false;
      more := !(a.status == Success || a.status == ExecutionStatus.Timeout || a.status == Cancelled);
    }

    /** `run_project`: detect the project's type, take the given
        configuration or the detected type's, and run; `None` where
        detecting the type or reading its configuration raises. */
    method RunProject(re: Regex, loc: ErrorDetector.LocationSearch, t: Tree, parse: JsonParser,
                      config: Option<ProjectConfig>, q: RunRequest) returns (result: Option<ExecutionResult>)
      modifies this
      ensures result == RunProjectSpec(Current(), re, loc, t, parse, config, q)
      ensures currentProcess.None? || currentProcess == old(currentProcess)
    {
      cancelled := false;
      var handler := DetectProjectType(t, q.dir, parse);
      if handler.None? {
        return None;
      }
      var cfg := if config.Some? then config else GetConfig(handler.value, t, q.dir, parse);
      if cfg.None? {
        return None;
      }
      var r := RunConfigured(re, loc, Name(handler.value), cfg.value, q);
      result := Some(r);
    }

    /** The body of `run_project` once the type and configuration are known:
        install, resolve the command, retry, scan for errors. */
    method RunConfigured(re: Regex, loc: ErrorDetector.LocationSearch, kind: string, config: ProjectConfig,
                         q: RunRequest) returns (result: ExecutionResult)
      requires !cancelled
      modifies this
      ensures result == RunOutcome(Current(), re, loc, kind, config, q).0
      ensures currentProcess.None? || currentProcess == old(currentProcess)
    {
      result := NewResult(kind, config);
      if q.setup && Truthy(config.installCommand) {
        result := result.(status := SettingUp);
        var setup := SetupEnvironment(setupTimeout, config, q.dir, q.env, q.os, q.install);
        result := result.(setupOutput := setup.1);
        if !setup.0 {
          var errors := ErrorDetector.ParseErrorLogs(re, loc, detector, setup.1, "");
          result := result.(status := Failed, message := "Setup failed", errors := errors);
          return;
        }
      }
      var command := ResolveCommand(q.command, config);
      if command.None? {
        result := result.(status := Failed, message := "No run command available");
        return;
      }
      var env := MergeEnv(q.os, config.environment, q.env);
      var wasCancelled;
      ghost var launched;
      ghost var attempts := AttemptsOf(Current(), config, q, command.value);
      result, wasCancelled, launched := RetryLoop(command.value, q.dir, env, q.launch, q.cancelAt, result, attempts);
      result := AfterLoop(re, loc, result, wasCancelled, launched);
    }

    /** The end of `run_project`: unless cancelled, scan the output for
        errors and turn a SUCCESS with an error into FAILED. */
    method AfterLoop(re: Regex, loc: ErrorDetector.LocationSearch, r: ExecutionResult, wasCancelled: bool,
                     ghost launched: nat) returns (result: ExecutionResult)
      ensures result == Finish(Current(), re, loc, (r, wasCancelled, launched)).0
    {
      result := r;
      if wasCancelled {
        return;
      }
      var errors := DetectErrors(re, loc, result.stdout, result.stderr);
      result := result.(errors := errors);
      if |errors| > 0 && result.status == Success {
        if exists e :: e in errors && e.severity == "error" {
          result := result.(status := Failed);
        }
      }
    }
  }
}
