/** The verification loop: run the project, test it, try to fix what broke,
    and repeat until it works, stalls, or runs out of cycles.

    The components the loop drives are inputs: `run_project`, `run_tests`
    and the auto-fixer's `generate_fix` / `apply_fix` are the functions of a
    `World`, and a `cancel()` from another thread is the cycle before whose
    check it arrives. An error's MD5 hash is modelled by the key it is
    computed from. */
module Loop {
  import opened Text
  import ErrorDetector
  import Runner
  import TestExecutor

  datatype LoopStatus =
    | NotStarted | Running | Success | Failed | MaxRetriesReached | StuckInLoop | NeedsHumanHelp | Cancelled

  datatype ProgressTrend = Improving | Regressing | Stalled | Unknown

  /** A fix proposed by the auto-fixer; its confidence is in hundredths. */
  datatype GeneratedFix = GeneratedFix(description: string, confidence: nat)

  /** What became of a proposed fix: applied (successfully or not), or
      refused because its confidence was below the threshold. */
  datatype FixOutcome = Applied(success: bool) | ConfidenceTooLow

  datatype FixAttempt = FixAttempt(error: ErrorDetector.DetectedError, fix: GeneratedFix, outcome: FixOutcome)

  /** `fix_result.result.success`. */
  predicate Succeeded(a: FixAttempt)
  {
    a.outcome == Applied(true)
  }

  /** The `status` string of a cycle. */
  datatype CycleStatus = CyclePending | ErrorsFound | TestsFailed | CycleSuccess | ExecutionCompleted

  datatype CycleResult = CycleResult(
    cycleNumber: nat,
    executionResult: Option<Runner.ExecutionResult>,
    testResult: Option<TestExecutor.TestResult>,
    errorsFound: seq<ErrorDetector.DetectedError>,
    fixesAttempted: seq<FixAttempt>,
    fixesSuccessful: nat,
    fixesFailed: nat,
    status: CycleStatus)

  datatype LoopProgress = LoopProgress(
    totalCycles: nat,
    totalErrorsFound: nat,
    totalErrorsFixed: nat,
    uniqueErrorsSeen: nat,
    repeatedErrors: nat,
    trend: ProgressTrend,
    errorCountHistory: seq<nat>)

  const InitialProgress := LoopProgress(0, 0, 0, 0, 0, Unknown, [])

  /** The loop's settings; the confidence threshold is in hundredths. */
  datatype Settings = Settings(
    maxCycles: nat, maxSameErrorAttempts: nat, runTests: bool, autoFix: bool, confidenceThreshold: nat)

  /** A call into the auto-fixer: the value it returned, or the exception
      it raised. */
  datatype Call<T> = Returned(value: T) | Threw

  /** The components the loop drives, as functions of what they are given:
      `run(k, setup)` is `run_project` in cycle `k` (None when it raises),
      `test(k)` is `run_tests` in cycle `k`, `generate(e, k)` is what
      `analyze_error` followed by `generate_fix` give for `e` with
      `{"cycle": k}` as context (`Threw` when either raises) and
      `apply(f, k)` is whether applying it succeeds (`Threw` when it
      raises). `cancelAt` is the cycle before whose check `cancel()` is
      called, if it is. */
  datatype World = World(
    run: (nat, bool) -> Option<Runner.ExecutionResult>,
    test: nat -> Option<TestExecutor.TestResult>,
    generate: (ErrorDetector.DetectedError, nat) -> Call<Option<GeneratedFix>>,
    apply: (GeneratedFix, nat) -> Call<bool>,
    cancelAt: Option<nat>)

  // ---------------------------------------------------------------------
  // Error identity and the per-error attempt counters.

  /** What `_get_error_hash` hashes: the category, the file (or ""), the
      line (or 0) and the first 100 characters of the message. */
  type ErrorKey = (ErrorDetector.ErrorCategory, string, int, string)

  function Head(s: string, n: nat): (r: string)
    ensures |r| == ErrorDetector.Min(|s|, n) && r <= s
    ensures |s| <= n ==> r == s
  {
    if |s| <= n then s else s[..n]
  }

  function ErrorHash(e: ErrorDetector.DetectedError): ErrorKey
  {
    (e.category,
     if e.filePath.Some? then e.filePath.value else "",
     if e.lineNumber.Some? then e.lineNumber.value else 0,
     Head(e.message, 100))
  }

  lemma HeadEquality(x: string, y: string, n: nat)
    ensures Head(x, n) == Head(y, n) <==> x == y || (|x| >= n && |y| >= n && x[..n] == y[..n])
  {
    if |x| < n || |y| < n {
      if Head(x, n) == Head(y, n) {
        assert |x| < n && |y| < n;
      }
    }
  }

  /** Two errors get the same hash exactly when they agree on category, file,
      line and the first 100 characters of their messages: the stack trace,
      the context and the rest of the message play no part. */
  lemma ErrorHashIdentity(a: ErrorDetector.DetectedError, b: ErrorDetector.DetectedError)
    ensures ErrorHash(a) == ErrorHash(b) <==>
      a.category == b.category &&
      (if a.filePath.Some? then a.filePath.value else "") == (if b.filePath.Some? then b.filePath.value else "") &&
      (if a.lineNumber.Some? then a.lineNumber.value else 0) == (if b.lineNumber.Some? then b.lineNumber.value else 0) &&
      (a.message == b.message ||
       (|a.message| >= 100 && |b.message| >= 100 && a.message[..100] == b.message[..100]))
  {
    HeadEquality(a.message, b.message, 100);
  }

  /** `_error_hash_counts` and `_seen_error_hashes`. */
  datatype Tally = Tally(counts: map<ErrorKey, nat>, seen: set<ErrorKey>)

  /** `_error_hash_counts.get(h, 0)`. */
  function Count(t: Tally, h: ErrorKey): nat
  {
    if h in t.counts then t.counts[h] else 0
  }

  /** Every counted hash has been seen, and no count exceeds the cap. */
  predicate WithinCap(cap: nat, t: Tally)
  {
    t.counts.Keys == t.seen && forall h :: h in t.counts ==> t.counts[h] <= cap
  }

  /** `_attempt_fix` in a cycle whose context number is `context`: the
      attempt it returns (None for a skipped error or when no fix is
      proposed), the new counters, and whether a call into the auto-fixer
      raised, which it does only after the counters were raised. */
  function AttemptSpec(st: Settings, w: World, context: nat, t: Tally, e: ErrorDetector.DetectedError)
    : (Option<FixAttempt>, Tally, bool)
  {
    var h := ErrorHash(e);
    if Count(t, h) >= st.maxSameErrorAttempts then (None, t, false)
    else
      var t' := Tally(t.counts[h := Count(t, h) + 1], t.seen + {h});
      match w.generate(e, context)
      case Threw => (None, t', true)
      case Returned(None) => (None, t', false)
      case Returned(Some(fix)) =>
        if fix.confidence < st.confidenceThreshold then (Some(FixAttempt(e, fix, ConfidenceTooLow)), t', false)
        else
          match w.apply(fix, context)
          case Threw => (None, t', true)
          case Returned(ok) => (Some(FixAttempt(e, fix, Applied(ok))), t', false)
  }

  /** Whether the auto-fixer raises on `e`: analysing it or generating its
      fix raises, or a fix at or above the threshold raises when applied. */
  predicate FixerRaises(st: Settings, w: World, context: nat, e: ErrorDetector.DetectedError)
  {
    var g := w.generate(e, context);
    g.Threw? ||
    (g.value.Some? && g.value.value.confidence >= st.confidenceThreshold && w.apply(g.value.value, context).Threw?)
  }

  /** An error already tried `max_same_error_attempts` times is skipped and
      nothing changes; any other error has its count raised by exactly one
      and its hash marked seen, so no count ever passes the cap. A fix below
      the confidence threshold is never applied but still counts. A call
      into the auto-fixer that raises gives no attempt, and the raised count
      stays raised. */
  lemma AttemptWithinCap(st: Settings, w: World, context: nat, t: Tally, e: ErrorDetector.DetectedError)
    requires WithinCap(st.maxSameErrorAttempts, t)
    ensures var (a, t', raised) := AttemptSpec(st, w, context, t, e);
      WithinCap(st.maxSameErrorAttempts, t') &&
      (Count(t, ErrorHash(e)) >= st.maxSameErrorAttempts ==> a.None? && t' == t && !raised) &&
      (Count(t, ErrorHash(e)) < st.maxSameErrorAttempts ==>
        Count(t', ErrorHash(e)) == Count(t, ErrorHash(e)) + 1 && t'.seen == t.seen + {ErrorHash(e)} &&
        forall h :: h != ErrorHash(e) ==> Count(t', h) == Count(t, h)) &&
      (raised <==> Count(t, ErrorHash(e)) < st.maxSameErrorAttempts && FixerRaises(st, w, context, e)) &&
      (raised ==> a.None?) &&
      (a.Some? ==> a.value.error == e && Returned(Some(a.value.fix)) == w.generate(e, context)) &&
      (a.Some? && a.value.fix.confidence < st.confidenceThreshold ==> a.value.outcome == ConfidenceTooLow) &&
      (a.Some? && a.value.fix.confidence >= st.confidenceThreshold ==>
        Returned(a.value.outcome.success) == w.apply(a.value.fix, context) && a.value.outcome.Applied?)
  {
  }

  /** The counters, attempts and tallies of the fix step, and whether it
      raised. */
  type Fixes = (Tally, seq<FixAttempt>, nat, nat, bool)

  /** The fix step of a cycle over `errors`: the new counters, the attempts
      made, how many of them succeeded and failed, and whether an attempt
      raised, which ends the step. */
  function FixAll(st: Settings, w: World, context: nat, t: Tally, errors: seq<ErrorDetector.DetectedError>): Fixes
  {
    if errors == [] then (t, [], 0, 0, false)
    else
      var x := FixAll(st, w, context, t, errors[..|errors| - 1]);
      if x.4 then x else Tallied(x, AttemptSpec(st, w, context, x.0, errors[|errors| - 1]))
  }

  /** The counters, attempts and tallies `x` after one more attempt `r`
      (with the counters it leaves and whether it raised). */
  function Tallied(x: Fixes, r: (Option<FixAttempt>, Tally, bool)): Fixes
  {
    var (a, t', raised) := r;
    if raised then (t', x.1, x.2, x.3, true)
    else if a.None? then (t', x.1, x.2, x.3, false)
    else if Succeeded(a.value) then (t', x.1 + [a.value], x.2 + 1, x.3, false)
    else (t', x.1 + [a.value], x.2, x.3 + 1, false)
  }

  /** `FixAll` over one more error of `errors`. */
  lemma FixAllStep(st: Settings, w: World, context: nat, t: Tally, errors: seq<ErrorDetector.DetectedError>, i: nat)
    requires i < |errors|
    ensures var x := FixAll(st, w, context, t, errors[..i]);
      x.4 ==> FixAll(st, w, context, t, errors[..i + 1]) == x
    ensures var x := FixAll(st, w, context, t, errors[..i]);
      !x.4 ==> FixAll(st, w, context, t, errors[..i + 1]) == Tallied(x, AttemptSpec(st, w, context, x.0, errors[i]))
  {
    assert errors[..i + 1][..i] == errors[..i];
  }

  /** Once an attempt has raised, the later errors are not attempted: the
      fix step over all of `errors` is the one over the first `i`. */
  lemma {:induction false} FixAllRaised(st: Settings, w: World, context: nat, t: Tally,
                                        errors: seq<ErrorDetector.DetectedError>, i: nat)
    requires i <= |errors| && FixAll(st, w, context, t, errors[..i]).4
    ensures FixAll(st, w, context, t, errors) == FixAll(st, w, context, t, errors[..i])
    decreases |errors| - i
  {
    if i < |errors| {
      FixAllStep(st, w, context, t, errors, i);
      FixAllRaised(st, w, context, t, errors, i + 1);
    } else {
      assert errors[..i] == errors;
    }
  }

  /** The number of attempts that succeeded. */
  function SuccessCount(attempts: seq<FixAttempt>): nat
  {
    if attempts == [] then 0
    else SuccessCount(attempts[..|attempts| - 1]) + (if Succeeded(attempts[|attempts| - 1]) then 1 else 0)
  }

  /** Every fix attempt is tallied as exactly one success or one failure, the
      successes are the attempts that succeeded, each attempt is for one of
      the errors (at most one per error) and the counters stay within the cap. */
  lemma {:induction false} FixAllTallies(st: Settings, w: World, context: nat, t: Tally,
                                         errors: seq<ErrorDetector.DetectedError>)
    requires WithinCap(st.maxSameErrorAttempts, t)
    ensures var x := FixAll(st, w, context, t, errors);
      x.2 + x.3 == |x.1| && x.2 == SuccessCount(x.1) && |x.1| <= |errors| &&
      (forall a :: a in x.1 ==> a.error in errors) &&
      WithinCap(st.maxSameErrorAttempts, x.0)
  {
    if errors != [] {
      var init := errors[..|errors| - 1];
      FixAllTallies(st, w, context, t, init);
      var x := FixAll(st, w, context, t, init);
      AttemptWithinCap(st, w, context, x.0, errors[|errors| - 1]);
      var (a, t', raised) := AttemptSpec(st, w, context, x.0, errors[|errors| - 1]);
      if !x.4 && !raised && a.Some? {
        assert (x.1 + [a.value])[..|x.1|] == x.1;
      }
    }
  }

  // ---------------------------------------------------------------------
  // One cycle.

  /** What a cycle leaves: the counters after it, and the cycle, or None
      when it raised. */
  type CycleOutcome = (Tally, Option<CycleResult>)

  /** `_run_single_cycle` number `k`, with `context` the number the fixer is
      given: the new counters and the cycle, or None when the cycle raises,
      with the counters its fix attempts had raised by then. A test run
      that fails raises: its handler reads `error_output`, a field
      `TestResult` does not have. */
  function CycleSpec(st: Settings, w: World, k: nat, setup: bool, context: nat, t: Tally): CycleOutcome
  {
    match w.run(k, setup)
    case None => (t, None)
    case Some(ex) =>
      var c := CycleResult(k, Some(ex), None, [], [], 0, 0, CyclePending);
      if ex.status != Runner.ExecutionStatus.Success && ex.status != Runner.ExecutionStatus.Timeout then
        if st.autoFix && ex.errors != [] then
          var x := FixAll(st, w, context, t, ex.errors);
          if x.4 then (x.0, None)
          else (x.0, Some(c.(errorsFound := ex.errors, fixesAttempted := x.1, fixesSuccessful := x.2, fixesFailed := x.3,
                             status := ErrorsFound)))
        else (t, Some(c.(errorsFound := ex.errors, status := ErrorsFound)))
      else if st.runTests && ex.status == Runner.ExecutionStatus.Success then
        match w.test(k)
        case None => (t, None)
        case Some(tr) => if tr.success then (t, Some(c.(testResult := Some(tr), status := CycleSuccess))) else (t, None)
      else
        (t, Some(c.(status := if ex.status == Runner.ExecutionStatus.Success then CycleSuccess else ExecutionCompleted)))
  }

  /** A cycle is numbered `k` and holds the run's result; its successes and
      failures add up to its attempts; a run that neither succeeded nor timed
      out gives "errors_found" with the run's errors; a timed-out run, or a
      successful one that is not tested, finds no errors; "success" comes
      only from a successful run whose tests (if any) passed. */
  lemma {:induction false} CycleShape(st: Settings, w: World, k: nat, setup: bool, context: nat, t: Tally)
    requires WithinCap(st.maxSameErrorAttempts, t)
    requires CycleSpec(st, w, k, setup, context, t).1.Some?
    ensures var (t', c) := (CycleSpec(st, w, k, setup, context, t).0, CycleSpec(st, w, k, setup, context, t).1.value);
      var ex := w.run(k, setup).value;
      WithinCap(st.maxSameErrorAttempts, t') &&
      c.cycleNumber == k && c.executionResult == w.run(k, setup) &&
      c.fixesSuccessful + c.fixesFailed == |c.fixesAttempted| && c.fixesSuccessful == SuccessCount(c.fixesAttempted) &&
      (c.fixesAttempted != [] ==> st.autoFix) &&
      (ex.status != Runner.ExecutionStatus.Success && ex.status != Runner.ExecutionStatus.Timeout <==>
         c.status == ErrorsFound) &&
      (c.status == ErrorsFound ==> c.errorsFound == ex.errors) &&
      (c.status != ErrorsFound ==> c.errorsFound == [] && t' == t) &&
      (c.status == CycleSuccess <==>
         ex.status == Runner.ExecutionStatus.Success && (st.runTests ==> c.testResult.Some? && c.testResult.value.success)) &&
      c.status != TestsFailed && c.status != CyclePending
  {
    var ex := w.run(k, setup).value;
    if ex.status != Runner.ExecutionStatus.Success && ex.status != Runner.ExecutionStatus.Timeout &&
       st.autoFix && ex.errors != [] {
      FixAllTallies(st, w, k, t, ex.errors);
      FixAllTallies(st, w, context, t, ex.errors);
    }
  }

  /** The cycle raises exactly when the run raises, when a fix attempt on
      the run's errors raises, or when the tests run and either raise or
      fail. Only the fix step changes the counters, and what it raised
      them to is kept even when it raised. */
  lemma CycleRaises(st: Settings, w: World, k: nat, setup: bool, context: nat, t: Tally)
    requires WithinCap(st.maxSameErrorAttempts, t)
    ensures CycleSpec(st, w, k, setup, context, t).1.None? <==>
      w.run(k, setup).None? ||
      (var ex := w.run(k, setup).value;
       if ex.status != Runner.ExecutionStatus.Success && ex.status != Runner.ExecutionStatus.Timeout
       then st.autoFix && ex.errors != [] && FixAll(st, w, context, t, ex.errors).4
       else st.runTests && ex.status == Runner.ExecutionStatus.Success && (w.test(k).None? || !w.test(k).value.success))
    ensures var t' := CycleSpec(st, w, k, setup, context, t).0;
      WithinCap(st.maxSameErrorAttempts, t') &&
      (t' == t ||
       (w.run(k, setup).Some? && st.autoFix && w.run(k, setup).value.errors != [] &&
        t' == FixAll(st, w, context, t, w.run(k, setup).value.errors).0))
  {
    var ex := w.run(k, setup);
    if ex.Some? && st.autoFix && ex.value.errors != [] {
      FixAllTallies(st, w, context, t, ex.value.errors);
    }
  }

  // ---------------------------------------------------------------------
  // Progress.

  /** How many of `errors` have a hash in `seen`. */
  function SeenCount(errors: seq<ErrorDetector.DetectedError>, seen: set<ErrorKey>): (n: nat)
    ensures n <= |errors|
  {
    if errors == [] then 0
    else SeenCount(errors[..|errors| - 1], seen) + (if ErrorHash(errors[|errors| - 1]) in seen then 1 else 0)
  }

  /** The last three counts of a history, or all of it when shorter. */
  function Recent(h: seq<nat>): (r: seq<nat>)
    ensures |r| == ErrorDetector.Min(|h|, 3) && forall i :: 0 <= i < |r| ==> r[i] == h[|h| - |r| + i]
  {
    if |h| <= 3 then h else h[|h| - 3..]
  }

  /** `_calculate_trend` over an error-count history. */
  function Trend(h: seq<nat>): ProgressTrend
  {
    if |h| < 2 then Unknown
    else
      var r := Recent(h);
      if forall i :: 0 <= i < |r| ==> r[i] == r[0] then Stalled
      else if r[|r| - 1] < r[0] then Improving
      else if r[|r| - 1] > r[0] then Regressing
      else Stalled
  }

  /** The trend is UNKNOWN before two cycles; afterwards it compares the
      last count with the count two cycles earlier (or one, with only two):
      lower is IMPROVING, higher is REGRESSING, equal is STALLED. */
  lemma TrendSpec(h: seq<nat>)
    ensures Trend(h) == Unknown <==> |h| < 2
    ensures |h| >= 2 ==> var first := h[|h| - |Recent(h)|];
      (Trend(h) == Improving <==> h[|h| - 1] < first) &&
      (Trend(h) == Regressing <==> h[|h| - 1] > first) &&
      (Trend(h) == Stalled <==> h[|h| - 1] == first)
  {
    if |h| >= 2 {
      var r := Recent(h);
      assert r[|r| - 1] == h[|h| - 1] && r[0] == h[|h| - |r|];
    }
  }

  /** `_update_progress` after cycle `c`, with `seen` the hashes seen so far
      (including those this cycle's fixes have just added). */
  function Progressed(p: LoopProgress, seen: set<ErrorKey>, c: CycleResult): LoopProgress
  {
    var n := |c.errorsFound|;
    var repeated := SeenCount(c.errorsFound, seen);
    var h := p.errorCountHistory + [n];
    p.(totalCycles := p.totalCycles + 1,
       totalErrorsFound := p.totalErrorsFound + n,
       errorCountHistory := h,
       totalErrorsFixed := p.totalErrorsFixed + c.fixesSuccessful,
       repeatedErrors := p.repeatedErrors + repeated,
       uniqueErrorsSeen := p.uniqueErrorsSeen + (n - repeated),
       trend := Trend(h))
  }

  /** Progress tracking: one more cycle, its error count appended to the
      history and added to the total, and every error counted once as either
      unique or repeated. An error the loop has just tried to fix is already
      seen, so with every error of a cycle tried, all of them count as
      repeated. */
  lemma ProgressedCounts(p: LoopProgress, seen: set<ErrorKey>, c: CycleResult)
    ensures var q := Progressed(p, seen, c);
      q.totalCycles == p.totalCycles + 1 &&
      q.errorCountHistory == p.errorCountHistory + [|c.errorsFound|] &&
      q.totalErrorsFound == p.totalErrorsFound + |c.errorsFound| &&
      q.uniqueErrorsSeen + q.repeatedErrors == p.uniqueErrorsSeen + p.repeatedErrors + |c.errorsFound| &&
      ((forall e :: e in c.errorsFound ==> ErrorHash(e) in seen) ==> q.uniqueErrorsSeen == p.uniqueErrorsSeen) &&
      ((forall e :: e in c.errorsFound ==> ErrorHash(e) !in seen) ==> q.repeatedErrors == p.repeatedErrors)
  {
    SeenCountExtremes(c.errorsFound, seen);
  }

  lemma {:induction false} SeenCountExtremes(errors: seq<ErrorDetector.DetectedError>, seen: set<ErrorKey>)
    ensures (forall e :: e in errors ==> ErrorHash(e) in seen) ==> SeenCount(errors, seen) == |errors|
    ensures (forall e :: e in errors ==> ErrorHash(e) !in seen) ==> SeenCount(errors, seen) == 0
  {
    if errors != [] {
      SeenCountExtremes(errors[..|errors| - 1], seen);
      assert forall e :: e in errors[..|errors| - 1] ==> e in errors;
    }
  }

  // ---------------------------------------------------------------------
  // The loop's state and its stopping rules.

  /** The state the loop carries from cycle to cycle. */
  datatype LoopState = LoopState(status: LoopStatus, progress: LoopProgress, cycles: seq<CycleResult>, tally: Tally)

  /** The hashes of `errors`, in order. */
  function Hashes(errors: seq<ErrorDetector.DetectedError>): (r: seq<ErrorKey>)
    ensures |r| == |errors| && forall i :: 0 <= i < |errors| ==> r[i] == ErrorHash(errors[i])
  {
    if errors == [] then [] else Hashes(errors[..|errors| - 1]) + [ErrorHash(errors[|errors| - 1])]
  }

  /** `_get_cycle_error_signature`: the sorted hashes joined by "|", "" for
      a cycle without errors. Two signatures are equal exactly when the
      cycles' hashes are equal as multisets, which is what is kept here. */
  function Signature(c: CycleResult): multiset<ErrorKey>
  {
    multiset(Hashes(c.errorsFound))
  }

  /** The order in which a cycle reports its errors does not change its
      signature, and only a cycle without errors has the empty one. */
  lemma SignatureOrderFree(c: CycleResult, d: CycleResult)
    ensures multiset(c.errorsFound) == multiset(d.errorsFound) ==> Signature(c) == Signature(d)
    ensures Signature(c) == multiset{} <==> c.errorsFound == []
  {
    if multiset(c.errorsFound) == multiset(d.errorsFound) {
      HashesPermute(c.errorsFound, d.errorsFound);
    }
    if c.errorsFound != [] {
      assert Hashes(c.errorsFound)[0] in multiset(Hashes(c.errorsFound));
    }
  }

  lemma {:induction false} HashesPermute(a: seq<ErrorDetector.DetectedError>, b: seq<ErrorDetector.DetectedError>)
    requires multiset(a) == multiset(b)
    ensures multiset(Hashes(a)) == multiset(Hashes(b))
    decreases |a|
  {
    if a != [] {
      var x := a[|a| - 1];
      var a' := a[..|a| - 1];
      assert a == a' + [x];
      assert x in multiset(b);
      var j :| 0 <= j < |b| && b[j] == x;
      var b1, b2 := b[..j], b[j + 1..];
      assert b == b1 + [x] + b2;
      CancelOne(a', x, b1, b2);
      HashesPermute(a', b1 + b2);
      HashesRemove(b1, x, b2);
      assert Hashes(a) == Hashes(a') + [ErrorHash(x)];
    }
  }

  /** Taking out error `x` takes its hash out of the hashes. */
  lemma HashesRemove(b1: seq<ErrorDetector.DetectedError>, x: ErrorDetector.DetectedError, b2: seq<ErrorDetector.DetectedError>)
    ensures multiset(Hashes(b1 + [x] + b2)) == multiset(Hashes(b1 + b2)) + multiset{ErrorHash(x)}
  {
    HashesConcat(b1 + [x], b2);
    HashesConcat(b1, [x]);
    HashesConcat(b1, b2);
    assert Hashes([x]) == [ErrorHash(x)];
  }

  lemma CancelOne<T>(a: seq<T>, x: T, b1: seq<T>, b2: seq<T>)
    requires multiset(a + [x]) == multiset(b1 + [x] + b2)
    ensures multiset(a) == multiset(b1 + b2)
  {
    var m, n := multiset(a), multiset(b1 + b2);
    assert multiset(a + [x]) == m + multiset{x};
    assert multiset(b1 + [x] + b2) == n + multiset{x};
    forall y ensures m[y] == n[y] {
      assert (m + multiset{x})[y] == (n + multiset{x})[y];
    }
    assert m == n;
  }

  lemma {:induction false} HashesConcat(a: seq<ErrorDetector.DetectedError>, b: seq<ErrorDetector.DetectedError>)
    ensures Hashes(a + b) == Hashes(a) + Hashes(b)
  {
  }

  /** The last three entries of the history are positive. */
  predicate LastThreePositive(h: seq<nat>)
  {
    |h| >= 3 && forall i :: |h| - 3 <= i < |h| ==> h[i] > 0
  }

  /** `detect_infinite_loop`. */
  predicate InfiniteLoop(cycles: seq<CycleResult>, progress: LoopProgress)
  {
    var n := |cycles|;
    n >= 3 &&
    ((Signature(cycles[n - 1]) == Signature(cycles[n - 2]) == Signature(cycles[n - 3]) &&
      Signature(cycles[n - 3]) != multiset{}) ||
     (progress.trend == Stalled && LastThreePositive(progress.errorCountHistory)))
  }

  /** The reason `should_continue` gives. */
  datatype Reason = ReasonSuccess | ReasonStuck | ReasonRegressing | ReasonNeedsHelp | ReasonErrorsRemaining | ReasonContinue

  /** Every error of the cycle has used up its attempts. */
  predicate Exhausted(st: Settings, t: Tally, errors: seq<ErrorDetector.DetectedError>)
  {
    forall e :: e in errors ==> Count(t, ErrorHash(e)) >= st.maxSameErrorAttempts
  }

  /** `should_continue` after cycle `c`, in state `s`. */
  function Decision(st: Settings, s: LoopState, c: CycleResult): (bool, Reason)
  {
    if c.status == CycleSuccess then (false, ReasonSuccess)
    else if InfiniteLoop(s.cycles, s.progress) then (false, ReasonStuck)
    else if s.progress.trend == Regressing && |s.cycles| >= 3 then (false, ReasonRegressing)
    else if Exhausted(st, s.tally, c.errorsFound) && c.errorsFound != [] then (false, ReasonNeedsHelp)
    else if c.errorsFound != [] && |s.cycles| < st.maxCycles then (true, ReasonErrorsRemaining)
    else if c.errorsFound == [] then (false, ReasonSuccess)
    else (true, ReasonContinue)
  }

  /** The history records each cycle's error count, in order. */
  predicate HistoryMatches(s: LoopState)
  {
    var h := s.progress.errorCountHistory;
    |h| == |s.cycles| && forall i :: 0 <= i < |h| ==> h[i] == |s.cycles[i].errorsFound|
  }

  /** When the history matches the cycles, a cycle that found no errors
      stops the loop with reason "success" whatever its status (a timed-out
      run, say), and so does a "success" cycle. */
  lemma DecisionWithoutErrors(st: Settings, s: LoopState, c: CycleResult)
    requires HistoryMatches(s) && s.cycles != [] && s.cycles[|s.cycles| - 1] == c
    requires s.progress.trend == Trend(s.progress.errorCountHistory)
    ensures c.status == CycleSuccess || c.errorsFound == [] ==> Decision(st, s, c) == (false, ReasonSuccess)
  {
    var h := s.progress.errorCountHistory;
    if c.errorsFound == [] && c.status != CycleSuccess {
      assert h[|h| - 1] == 0;
      EmptyLastNotRegressing(h);
      EmptyLastNotStuck(s.cycles, s.progress);
    }
  }

  lemma EmptyLastNotRegressing(h: seq<nat>)
    requires h != [] && h[|h| - 1] == 0
    ensures Trend(h) != Regressing
  {
    TrendSpec(h);
  }

  lemma EmptyLastNotStuck(cycles: seq<CycleResult>, progress: LoopProgress)
    requires cycles != [] && cycles[|cycles| - 1].errorsFound == []
    requires var h := progress.errorCountHistory; h != [] && h[|h| - 1] == 0
    ensures !InfiniteLoop(cycles, progress)
  {
    SignatureOrderFree(cycles[|cycles| - 1], cycles[|cycles| - 1]);
  }

  /** The loop goes on only when the cycle found errors and one of them
      still has attempts left; with every error at the cap it stops, as
      stuck, regressing or needing help. */
  lemma DecisionWithErrors(st: Settings, s: LoopState, c: CycleResult)
    ensures Decision(st, s, c).0 ==>
      c.errorsFound != [] && exists e :: e in c.errorsFound && Count(s.tally, ErrorHash(e)) < st.maxSameErrorAttempts
    ensures c.status != CycleSuccess && c.errorsFound != [] && Exhausted(st, s.tally, c.errorsFound) ==>
      !Decision(st, s, c).0 && Decision(st, s, c).1 in {ReasonStuck, ReasonRegressing, ReasonNeedsHelp}
  {
  }

  // ---------------------------------------------------------------------
  // The whole loop.

  /** The error count of each cycle, in order. */
  function ErrorCounts(cycles: seq<CycleResult>): seq<nat>
  {
    if cycles == [] then [] else ErrorCounts(cycles[..|cycles| - 1]) + [|cycles[|cycles| - 1].errorsFound|]
  }

  /** Every attempt of every cycle is tallied once, as a success or a failure. */
  predicate AllTallied(cycles: seq<CycleResult>)
  {
    cycles == [] ||
    (AllTallied(cycles[..|cycles| - 1]) &&
     cycles[|cycles| - 1].fixesSuccessful + cycles[|cycles| - 1].fixesFailed == |cycles[|cycles| - 1].fixesAttempted|)
  }

  /** What the loop keeps true of its state: counters within the cap, one
      history entry per cycle, the trend computed from that history, every
      error of every cycle counted once as unique or repeated, and every
      attempt of a cycle tallied as one success or one failure. */
  predicate WellFormed(st: Settings, s: LoopState)
  {
    WithinCap(st.maxSameErrorAttempts, s.tally) &&
    s.progress.errorCountHistory == ErrorCounts(s.cycles) && s.progress.totalCycles == |s.cycles| &&
    s.progress.trend == Trend(s.progress.errorCountHistory) &&
    s.progress.uniqueErrorsSeen + s.progress.repeatedErrors == s.progress.totalErrorsFound &&
    AllTallied(s.cycles)
  }

  /** The history of a well-formed state matches its cycles entry by entry. */
  lemma {:induction false} ErrorCountsMatch(cycles: seq<CycleResult>)
    ensures var h := ErrorCounts(cycles);
      |h| == |cycles| && forall i :: 0 <= i < |h| ==> h[i] == |cycles[i].errorsFound|
  {
    if cycles != [] {
      var front := cycles[..|cycles| - 1];
      ErrorCountsMatch(front);
      assert forall i :: 0 <= i < |front| ==> cycles[i] == front[i];
    }
  }

  /** In a well-formed state every cycle's attempts add up. */
  lemma {:induction false} AllTalliedAt(cycles: seq<CycleResult>, i: nat)
    requires AllTallied(cycles) && i < |cycles|
    ensures cycles[i].fixesSuccessful + cycles[i].fixesFailed == |cycles[i].fixesAttempted|
  {
    if i < |cycles| - 1 {
      AllTalliedAt(cycles[..|cycles| - 1], i);
    }
  }

  /** The state of a loop that has not run yet. */
  const Fresh := LoopState(NotStarted, InitialProgress, [], Tally(map[], {}))

  lemma FreshWellFormed(st: Settings)
    ensures WellFormed(st, Fresh) && Fresh.status == NotStarted && Fresh.cycles == []
  {
  }

  /** Whether `cancel()` has been called before the check of cycle `k`. */
  predicate CancelledBy(cancelAt: Option<nat>, k: nat)
  {
    cancelAt.Some? && cancelAt.value <= k
  }

  /** The status a stopping reason sets; "regressing" sets none. */
  function StatusAfter(reason: Reason, status: LoopStatus): LoopStatus
  {
    match reason
    case ReasonSuccess => Success
    case ReasonStuck => StuckInLoop
    case ReasonNeedsHelp => NeedsHumanHelp
    case _ => status
  }

  /** The check after the loop: a loop still RUNNING after `max` cycles
      has reached its limit. */
  function Finalize(max: nat, s: LoopState): LoopState
  {
    if |s.cycles| >= max && s.status == Running then s.(status := MaxRetriesReached) else s
  }

  /** The state once `should_continue` has said stop after cycle `c`. */
  function Stopped(st: Settings, s: LoopState, c: CycleResult): LoopState
  {
    Finalize(st.maxCycles, s.(status := StatusAfter(Decision(st, s, c).1, s.status)))
  }

  /** The state once cycle `c` has been appended and progress updated, with
      `t` the counters after its fixes. */
  function Recorded(s: LoopState, t: Tally, c: CycleResult): LoopState
  {
    LoopState(s.status, Progressed(s.progress, t.seen, c), s.cycles + [c], t)
  }

  /** One pass of the loop body, given whether the cancel flag is set and
      what `_run_single_cycle` left: the new state, and whether the loop
      goes on. A cycle that raised ends the loop as FAILED, keeping the
      counters its fix attempts had raised. */
  function StepWith(st: Settings, s: LoopState, cancelled: bool, outcome: CycleOutcome): (LoopState, bool)
  {
    if cancelled then (s.(status := Cancelled), false)
    else match outcome.1
      case None => (s.(status := Failed, tally := outcome.0), false)
      case Some(c) =>
        var s' := Recorded(s, outcome.0, c);
        if Decision(st, s', c).0 then (s', true) else (Stopped(st, s', c), false)
  }

  /** The pass of `run_development_cycle` at cycle `k`. */
  function Step(st: Settings, w: World, setup: bool, k: nat, s: LoopState): (LoopState, bool)
  {
    StepWith(st, s, CancelledBy(w.cancelAt, k), CycleSpec(st, w, k, setup && k == 1, |s.cycles| + 1, s.tally))
  }

  /** What `CycleShape` says of the outcome of cycle `k`. */
  predicate Shaped(st: Settings, w: World, setup: bool, k: nat, outcome: CycleOutcome)
  {
    WithinCap(st.maxSameErrorAttempts, outcome.0) &&
    (outcome.1.Some? ==>
      var c := outcome.1.value;
      c.fixesSuccessful + c.fixesFailed == |c.fixesAttempted| &&
      c.cycleNumber == k && c.executionResult == w.run(k, setup && k == 1))
  }

  lemma CycleShaped(st: Settings, w: World, setup: bool, k: nat, s: LoopState)
    requires WithinCap(st.maxSameErrorAttempts, s.tally)
    ensures Shaped(st, w, setup, k, CycleSpec(st, w, k, setup && k == 1, |s.cycles| + 1, s.tally))
  {
    CycleRaises(st, w, k, setup && k == 1, |s.cycles| + 1, s.tally);
    if CycleSpec(st, w, k, setup && k == 1, |s.cycles| + 1, s.tally).1.Some? {
      CycleShape(st, w, k, setup && k == 1, |s.cycles| + 1, s.tally);
    }
  }

  /** A pass of a loop body, given the cycle number and the state. */
  type Pass = (nat, LoopState) -> (LoopState, bool)

  /** The passes of `run_development_cycle` for these settings and components. */
  function Passes(st: Settings, w: World, setup: bool): Pass
  {
    (k: nat, s: LoopState) => Step(st, w, setup, k, s)
  }

  /** `for cycle_num in range(k, max + 1)` running `pass` until a pass says
      stop, followed by the check after the loop. */
  function Drive(pass: Pass, max: nat, k: nat, s: LoopState): LoopState
    requires k >= 1
    decreases max + 1 - k
  {
    if k > max then Finalize(max, s)
    else
      var (s', more) := pass(k, s);
      if more then Drive(pass, max, k + 1, s') else s'
  }

  /** `run_development_cycle`: the state after the call. */
  function Run(st: Settings, w: World, setup: bool, s: LoopState): LoopState
  {
    Drive(Passes(st, w, setup), st.maxCycles, 1, s.(status := Running))
  }

  /** Induction over the passes of a loop: a property `inv` of the cycle
      number and the state that every pass that goes on carries to the next
      number, and that every pass that stops, and the check after the last
      cycle, turn into `end`, holds of the result as `end`. */
  lemma {:induction false} DriveInduction(pass: Pass, max: nat, k: nat, s: LoopState,
      inv: (nat, LoopState) -> bool, end: LoopState -> bool)
    requires 1 <= k <= max + 1 && inv(k, s)
    requires forall j: nat, x: LoopState :: 1 <= j <= max && inv(j, x) && pass(j, x).1 ==> inv(j + 1, pass(j, x).0)
    requires forall j: nat, x: LoopState :: 1 <= j <= max && inv(j, x) && !pass(j, x).1 ==> end(pass(j, x).0)
    requires forall x: LoopState :: inv(max + 1, x) ==> end(Finalize(max, x))
    ensures end(Drive(pass, max, k, s))
    decreases max + 1 - k
  {
    if k <= max && pass(k, s).1 {
      DriveInduction(pass, max, k + 1, pass(k, s).0, inv, end);
    }
  }

  lemma RecordedWellFormed(st: Settings, s: LoopState, t: Tally, c: CycleResult)
    requires WellFormed(st, s) && WithinCap(st.maxSameErrorAttempts, t)
    requires c.fixesSuccessful + c.fixesFailed == |c.fixesAttempted|
    ensures WellFormed(st, Recorded(s, t, c))
  {
    ProgressedCounts(s.progress, t.seen, c);
    assert (s.cycles + [c])[..|s.cycles|] == s.cycles;
  }

  /** Well-formedness does not depend on the status. */
  lemma StatusFree(st: Settings, s: LoopState, x: LoopStatus)
    requires WellFormed(st, s)
    ensures WellFormed(st, s.(status := x))
  {
  }

  /** Each pass keeps the state well-formed. */
  lemma StepWellFormed(st: Settings, w: World, setup: bool, k: nat, s: LoopState,
      cancelled: bool, outcome: CycleOutcome)
    requires WellFormed(st, s) && Shaped(st, w, setup, k, outcome)
    ensures WellFormed(st, StepWith(st, s, cancelled, outcome).0)
  {
    var r := StepWith(st, s, cancelled, outcome).0;
    StepWithShape(st, s, cancelled, outcome);
    if cancelled {
      StatusFree(st, s, r.status);
    } else if outcome.1.Some? {
      RecordedWellFormed(st, s, outcome.0, outcome.1.value);
      StatusFree(st, Recorded(s, outcome.0, outcome.1.value), r.status);
    } else {
      StatusFree(st, s.(tally := outcome.0), r.status);
    }
  }

  /** A pass changes the state only by recording the cycle, when there is
      one, by keeping the counters of a cycle that raised, and by setting
      the status. */
  lemma StepWithShape(st: Settings, s: LoopState, cancelled: bool, outcome: CycleOutcome)
    ensures var r := StepWith(st, s, cancelled, outcome).0;
      r == (if cancelled then s
            else if outcome.1.Some? then Recorded(s, outcome.0, outcome.1.value)
            else s.(tally := outcome.0)).(status := r.status)
  {
    var r := StepWith(st, s, cancelled, outcome).0;
    if !cancelled && outcome.1.Some? {
      var s' := Recorded(s, outcome.0, outcome.1.value);
      assert r == s'.(status := r.status);
    }
  }

  /** Each call keeps the state well-formed. */
  lemma RunWellFormed(st: Settings, w: World, setup: bool, s: LoopState)
    requires WellFormed(st, s)
    ensures WellFormed(st, Run(st, w, setup, s))
  {
    var pass := Passes(st, w, setup);
    var inv := (j: nat, x: LoopState) => WellFormed(st, x);
    var end := (x: LoopState) => WellFormed(st, x);
    forall j: nat, x: LoopState | 1 <= j <= st.maxCycles && inv(j, x)
      ensures WellFormed(st, pass(j, x).0)
    {
      CycleShaped(st, w, setup, j, x);
      StepWellFormed(st, w, setup, j, x, CancelledBy(w.cancelAt, j), CycleSpec(st, w, j, setup && j == 1, |x.cycles| + 1, x.tally));
    }
    forall x: LoopState | inv(st.maxCycles + 1, x) ensures end(Finalize(st.maxCycles, x)) {
      StatusFree(st, x, Finalize(st.maxCycles, x).status);
    }
    StatusFree(st, s, Running);
    DriveInduction(pass, st.maxCycles, 1, s.(status := Running), inv, end);
  }

  /** A pass adds at most the cycle numbered `k`, which ran with `setup`
      only when `k` is 1, and only when the cancel flag was clear; the loop
      goes on only after adding it. */
  lemma StepCycles(st: Settings, w: World, setup: bool, k: nat, s: LoopState,
      cancelled: bool, outcome: CycleOutcome)
    requires Shaped(st, w, setup, k, outcome) && cancelled == CancelledBy(w.cancelAt, k)
    ensures var (s2, more) := StepWith(st, s, cancelled, outcome);
      var n := |s.cycles|;
      (s2.cycles == s.cycles && !more) ||
      (|s2.cycles| == n + 1 && s2.cycles[..n] == s.cycles && Numbered(w, setup, k, s2.cycles[n]))
    ensures var (s2, more) := StepWith(st, s, cancelled, outcome);
      more ==> WithinCap(st.maxSameErrorAttempts, s2.tally) && s2.status == s.status
  {
    var r := StepWith(st, s, cancelled, outcome).0;
    if !cancelled && outcome.1.Some? {
      var s' := Recorded(s, outcome.0, outcome.1.value);
      assert r == s'.(status := r.status);
      assert s'.cycles[..|s.cycles|] == s.cycles;
    } else {
      assert r.cycles == s.cycles;
    }
  }

  /** Cycle `c` is the one numbered `k`: it ran with `setup` only when `k`
      is 1, after a check that found the cancel flag clear. */
  predicate Numbered(w: World, setup: bool, k: nat, c: CycleResult)
  {
    c.cycleNumber == k && c.executionResult == w.run(k, setup && k == 1) && !CancelledBy(w.cancelAt, k)
  }

  /** The cycles `cs` are numbered 1 to `|cs|`, in order. */
  predicate NumberedFrom(w: World, setup: bool, cs: seq<CycleResult>)
  {
    cs == [] || (NumberedFrom(w, setup, cs[..|cs| - 1]) && Numbered(w, setup, |cs|, cs[|cs| - 1]))
  }

  lemma {:induction false} NumberedFromAt(w: World, setup: bool, cs: seq<CycleResult>, i: nat)
    requires NumberedFrom(w, setup, cs) && i < |cs|
    ensures Numbered(w, setup, i + 1, cs[i])
  {
    if i < |cs| - 1 {
      NumberedFromAt(w, setup, cs[..|cs| - 1], i);
    }
  }

  /** The cycles from index `n` on are numbered 1, 2, ... */
  predicate NumberedAfter(w: World, setup: bool, n: nat, cs: seq<CycleResult>)
  {
    forall i :: n <= i < |cs| ==> Numbered(w, setup, i - n + 1, cs[i])
  }

  /** After `j - 1` passes of a call that started with the cycles `prior`:
      those are kept and the new ones are numbered 1 to `j - 1`. */
  predicate CyclesSoFar(st: Settings, w: World, setup: bool, prior: seq<CycleResult>, j: nat, x: LoopState)
  {
    WithinCap(st.maxSameErrorAttempts, x.tally) && 1 <= j && |x.cycles| == |prior| + j - 1 &&
    x.cycles[..|prior|] == prior && NumberedFrom(w, setup, x.cycles[|prior|..])
  }

  /** At the end of a call that started with the cycles `prior`: those are
      kept, and at most `max_cycles` new ones follow, numbered from 1. */
  predicate CyclesDone(st: Settings, w: World, setup: bool, prior: seq<CycleResult>, r: LoopState)
  {
    |prior| <= |r.cycles| <= |prior| + st.maxCycles && r.cycles[..|prior|] == prior &&
    NumberedFrom(w, setup, r.cycles[|prior|..])
  }

  lemma CyclesStep(st: Settings, w: World, setup: bool, prior: seq<CycleResult>, j: nat, x: LoopState,
      cancelled: bool, outcome: CycleOutcome)
    requires j <= st.maxCycles && CyclesSoFar(st, w, setup, prior, j, x)
    requires Shaped(st, w, setup, j, outcome) && cancelled == CancelledBy(w.cancelAt, j)
    ensures var (y, more) := StepWith(st, x, cancelled, outcome);
      if more then CyclesSoFar(st, w, setup, prior, j + 1, y) else CyclesDone(st, w, setup, prior, y)
  {
    StepCycles(st, w, setup, j, x, cancelled, outcome);
    var (y, more) := StepWith(st, x, cancelled, outcome);
    CyclesExtend(st, w, setup, prior, j, x, y, more);
  }

  lemma CyclesExtend(st: Settings, w: World, setup: bool, prior: seq<CycleResult>, j: nat, x: LoopState,
      y: LoopState, more: bool)
    requires j <= st.maxCycles && CyclesSoFar(st, w, setup, prior, j, x)
    requires var n := |x.cycles|;
      (y.cycles == x.cycles && !more) ||
      (|y.cycles| == n + 1 && y.cycles[..n] == x.cycles && Numbered(w, setup, j, y.cycles[n]))
    requires more ==> WithinCap(st.maxSameErrorAttempts, y.tally)
    ensures if more then CyclesSoFar(st, w, setup, prior, j + 1, y) else CyclesDone(st, w, setup, prior, y)
  {
    var n := |prior|;
    if |y.cycles| == |x.cycles| + 1 {
      assert y.cycles[..n] == y.cycles[..|x.cycles|][..n];
      var added := y.cycles[n..];
      assert added[..|added| - 1] == x.cycles[n..];
    }
  }

  function CyclesInv(st: Settings, w: World, setup: bool, prior: seq<CycleResult>): (nat, LoopState) -> bool
  {
    (j: nat, x: LoopState) => CyclesSoFar(st, w, setup, prior, j, x)
  }

  function CyclesEnd(st: Settings, w: World, setup: bool, prior: seq<CycleResult>): LoopState -> bool
  {
    (r: LoopState) => CyclesDone(st, w, setup, prior, r)
  }

  lemma CyclesPasses(st: Settings, w: World, setup: bool, prior: seq<CycleResult>)
    ensures var pass, inv, end := Passes(st, w, setup), CyclesInv(st, w, setup, prior), CyclesEnd(st, w, setup, prior);
      (forall j: nat, x: LoopState :: 1 <= j <= st.maxCycles && inv(j, x) && pass(j, x).1 ==> inv(j + 1, pass(j, x).0)) &&
      (forall j: nat, x: LoopState :: 1 <= j <= st.maxCycles && inv(j, x) && !pass(j, x).1 ==> end(pass(j, x).0)) &&
      (forall x: LoopState :: inv(st.maxCycles + 1, x) ==> end(Finalize(st.maxCycles, x)))
  {
    var pass, inv, end := Passes(st, w, setup), CyclesInv(st, w, setup, prior), CyclesEnd(st, w, setup, prior);
    forall j: nat, x: LoopState | 1 <= j <= st.maxCycles && inv(j, x)
      ensures pass(j, x).1 ==> inv(j + 1, pass(j, x).0)
      ensures !pass(j, x).1 ==> end(pass(j, x).0)
    {
      var outcome := CycleSpec(st, w, j, setup && j == 1, |x.cycles| + 1, x.tally);
      CycleShaped(st, w, setup, j, x);
      CyclesStep(st, w, setup, prior, j, x, CancelledBy(w.cancelAt, j), outcome);
      assert pass(j, x) == StepWith(st, x, CancelledBy(w.cancelAt, j), outcome);
    }
    forall x: LoopState | inv(st.maxCycles + 1, x) ensures end(Finalize(st.maxCycles, x)) {
      assert Finalize(st.maxCycles, x).cycles == x.cycles;
    }
  }

  /** The cycles a call adds are numbered 1, 2, ..., at most `max_cycles`
      of them; only cycle 1 runs with `setup`; the cancel flag was checked
      clear before each; the cycles from before the call are kept. */
  lemma RunCycles(st: Settings, w: World, setup: bool, s: LoopState)
    requires WithinCap(st.maxSameErrorAttempts, s.tally)
    ensures var r, n := Run(st, w, setup, s), |s.cycles|;
      n <= |r.cycles| <= n + st.maxCycles && r.cycles[..n] == s.cycles &&
      NumberedAfter(w, setup, n, r.cycles)
  {
    RunCyclesDone(st, w, setup, s);
    DoneNumbered(st, w, setup, s.cycles, Run(st, w, setup, s));
  }

  lemma DoneNumbered(st: Settings, w: World, setup: bool, prior: seq<CycleResult>, r: LoopState)
    requires CyclesDone(st, w, setup, prior, r)
    ensures var n := |prior|;
      n <= |r.cycles| <= n + st.maxCycles && r.cycles[..n] == prior && NumberedAfter(w, setup, n, r.cycles)
  {
    var n := |prior|;
    forall i | n <= i < |r.cycles| ensures Numbered(w, setup, i - n + 1, r.cycles[i]) {
      NumberedFromAt(w, setup, r.cycles[n..], i - n);
    }
  }

  lemma RunCyclesDone(st: Settings, w: World, setup: bool, s: LoopState)
    requires WithinCap(st.maxSameErrorAttempts, s.tally)
    ensures CyclesDone(st, w, setup, s.cycles, Run(st, w, setup, s))
  {
    CyclesPasses(st, w, setup, s.cycles);
    assert s.cycles[..|s.cycles|] == s.cycles;
    assert CyclesInv(st, w, setup, s.cycles)(1, s.(status := Running));
    DriveInduction(Passes(st, w, setup), st.maxCycles, 1, s.(status := Running),
      CyclesInv(st, w, setup, s.cycles), CyclesEnd(st, w, setup, s.cycles));
  }

  /** How a stop after a cycle sets the status, from RUNNING: "success",
      "stuck" and "needs help" set their status; "regressing" leaves RUNNING
      unless the cycle limit is reached. */
  lemma StoppedStatus(st: Settings, s: LoopState, c: CycleResult)
    requires s.status == Running && !Decision(st, s, c).0
    requires s.cycles != [] && s.cycles[|s.cycles| - 1] == c
    ensures var r := Stopped(st, s, c);
      r == s.(status := r.status) &&
      r.status in {Running, MaxRetriesReached, Success, StuckInLoop, NeedsHumanHelp} &&
      (r.status == MaxRetriesReached ==> |r.cycles| >= st.maxCycles) &&
      (r.status == Running ==> |r.cycles| < st.maxCycles && |r.cycles| >= 3 && r.progress.trend == Regressing) &&
      (r.status == Success ==> c.status == CycleSuccess || c.errorsFound == []) &&
      (r.status == NeedsHumanHelp ==> c.errorsFound != [] && Exhausted(st, r.tally, c.errorsFound)) &&
      (r.status == StuckInLoop ==> InfiniteLoop(r.cycles, r.progress))
  {
    var r := Stopped(st, s, c);
    assert r == s.(status := r.status);
    if r.status == StuckInLoop {
      assert InfiniteLoop(s.cycles, s.progress);
    }
  }

  /** What the loop ends with, for a call that started with `n` cycles:
      the status names its cause, with `m` the number of the cycle whose
      check or run stopped it. */
  ghost predicate Ended(st: Settings, w: World, setup: bool, n: nat, r: LoopState)
  {
    var m := |r.cycles| - n + 1;
    n <= |r.cycles| &&
    (r.status == Cancelled ==> m <= st.maxCycles && CancelledBy(w.cancelAt, m)) &&
    (r.status == Failed ==>
      m <= st.maxCycles && !CancelledBy(w.cancelAt, m) &&
      exists t0 :: WithinCap(st.maxSameErrorAttempts, t0) &&
        CycleSpec(st, w, m, setup && m == 1, |r.cycles| + 1, t0) == (r.tally, None)) &&
    (r.status == MaxRetriesReached ==> |r.cycles| >= st.maxCycles) &&
    (r.status == Running ==>
      |r.cycles| < st.maxCycles && |r.cycles| >= 3 && r.progress.trend == Regressing) &&
    (r.status == Success ==>
      |r.cycles| > n &&
      (r.cycles[|r.cycles| - 1].status == CycleSuccess || r.cycles[|r.cycles| - 1].errorsFound == [])) &&
    (r.status == NeedsHumanHelp ==>
      |r.cycles| > n && r.cycles[|r.cycles| - 1].errorsFound != [] &&
      Exhausted(st, r.tally, r.cycles[|r.cycles| - 1].errorsFound)) &&
    (r.status == StuckInLoop ==> InfiniteLoop(r.cycles, r.progress)) &&
    r.status != NotStarted
  }

  /** A pass from RUNNING either goes on, RUNNING with one more cycle, or
      stops: CANCELLED only when the flag was set, FAILED only when the
      cycle raised, with the counters it left, both without a new cycle;
      any other stop follows `should_continue` after a new cycle. */
  lemma StepWithStatus(st: Settings, s: LoopState, cancelled: bool, outcome: CycleOutcome)
    requires s.status == Running && WithinCap(st.maxSameErrorAttempts, outcome.0)
    ensures var (s2, more) := StepWith(st, s, cancelled, outcome);
      if more then s2.status == Running && |s2.cycles| == |s.cycles| + 1 && WithinCap(st.maxSameErrorAttempts, s2.tally)
      else
        s2.status != NotStarted &&
        (s2.status == Cancelled ==> cancelled && s2.cycles == s.cycles) &&
        (s2.status == Failed ==> !cancelled && outcome.1.None? && s2.cycles == s.cycles && s2.tally == outcome.0) &&
        (s2.status != Cancelled && s2.status != Failed ==>
          var c := s2.cycles[|s.cycles|];
          |s2.cycles| == |s.cycles| + 1 &&
          (s2.status == MaxRetriesReached ==> |s2.cycles| >= st.maxCycles) &&
          (s2.status == Running ==> |s2.cycles| < st.maxCycles && |s2.cycles| >= 3 && s2.progress.trend == Regressing) &&
          (s2.status == Success ==> c.status == CycleSuccess || c.errorsFound == []) &&
          (s2.status == NeedsHumanHelp ==> c.errorsFound != [] && Exhausted(st, s2.tally, c.errorsFound)) &&
          (s2.status == StuckInLoop ==> InfiniteLoop(s2.cycles, s2.progress)))
  {
    var r := StepWith(st, s, cancelled, outcome).0;
    if !cancelled && outcome.1.Some? {
      var s' := Recorded(s, outcome.0, outcome.1.value);
      if !Decision(st, s', outcome.1.value).0 {
        StoppedStatus(st, s', outcome.1.value);
        assert r == Stopped(st, s', outcome.1.value);
      }
    } else {
      assert r.cycles == s.cycles;
    }
  }

  /** After `j - 1` passes of a call that started with `n` cycles, all of
      which went on. */
  predicate RunningAt(st: Settings, n: nat, j: nat, x: LoopState)
  {
    x.status == Running && WithinCap(st.maxSameErrorAttempts, x.tally) && 1 <= j && |x.cycles| == n + j - 1
  }

  lemma StatusStep(st: Settings, w: World, setup: bool, n: nat, j: nat, x: LoopState,
      cancelled: bool, outcome: CycleOutcome)
    requires j <= st.maxCycles && RunningAt(st, n, j, x)
    requires cancelled == CancelledBy(w.cancelAt, j)
    requires outcome == CycleSpec(st, w, j, setup && j == 1, |x.cycles| + 1, x.tally)
    requires WithinCap(st.maxSameErrorAttempts, outcome.0)
    ensures var (y, more) := StepWith(st, x, cancelled, outcome);
      if more then RunningAt(st, n, j + 1, y) else Ended(st, w, setup, n, y)
  {
    StepWithStatus(st, x, cancelled, outcome);
    var (y, more) := StepWith(st, x, cancelled, outcome);
    if !more && y.status == Failed {
      assert WithinCap(st.maxSameErrorAttempts, x.tally) &&
        CycleSpec(st, w, j, setup && j == 1, |y.cycles| + 1, x.tally) == (y.tally, None);
    }
  }

  function RunningInv(st: Settings, n: nat): (nat, LoopState) -> bool
  {
    (j: nat, x: LoopState) => RunningAt(st, n, j, x)
  }

  ghost function EndedAs(st: Settings, w: World, setup: bool, n: nat): LoopState -> bool
  {
    (r: LoopState) => Ended(st, w, setup, n, r)
  }

  lemma StatusPass(st: Settings, w: World, setup: bool, n: nat, j: nat, x: LoopState)
    requires 1 <= j <= st.maxCycles && RunningAt(st, n, j, x)
    ensures if Step(st, w, setup, j, x).1 then RunningAt(st, n, j + 1, Step(st, w, setup, j, x).0)
      else Ended(st, w, setup, n, Step(st, w, setup, j, x).0)
  {
    var outcome := CycleSpec(st, w, j, setup && j == 1, |x.cycles| + 1, x.tally);
    CycleShaped(st, w, setup, j, x);
    StatusStep(st, w, setup, n, j, x, CancelledBy(w.cancelAt, j), outcome);
    assert Step(st, w, setup, j, x) == StepWith(st, x, CancelledBy(w.cancelAt, j), outcome);
  }

  lemma StatusPasses(st: Settings, w: World, setup: bool, n: nat)
    ensures var pass, inv, end := Passes(st, w, setup), RunningInv(st, n), EndedAs(st, w, setup, n);
      (forall j: nat, x: LoopState :: 1 <= j <= st.maxCycles && inv(j, x) && pass(j, x).1 ==> inv(j + 1, pass(j, x).0)) &&
      (forall j: nat, x: LoopState :: 1 <= j <= st.maxCycles && inv(j, x) && !pass(j, x).1 ==> end(pass(j, x).0)) &&
      (forall x: LoopState :: inv(st.maxCycles + 1, x) ==> end(Finalize(st.maxCycles, x)))
  {
    var pass, inv, end := Passes(st, w, setup), RunningInv(st, n), EndedAs(st, w, setup, n);
    forall j: nat, x: LoopState | 1 <= j <= st.maxCycles && inv(j, x)
      ensures pass(j, x).1 ==> inv(j + 1, pass(j, x).0)
      ensures !pass(j, x).1 ==> end(pass(j, x).0)
    {
      StatusPass(st, w, setup, n, j, x);
    }
    forall x: LoopState | inv(st.maxCycles + 1, x) ensures end(Finalize(st.maxCycles, x)) {
      assert Finalize(st.maxCycles, x) == x.(status := MaxRetriesReached);
    }
  }

  /** Why the loop stopped: each final status has one cause. */
  lemma RunStatus(st: Settings, w: World, setup: bool, s: LoopState)
    requires WithinCap(st.maxSameErrorAttempts, s.tally)
    ensures Ended(st, w, setup, |s.cycles|, Run(st, w, setup, s))
  {
    StatusPasses(st, w, setup, |s.cycles|);
    assert RunningInv(st, |s.cycles|)(1, s.(status := Running));
    DriveInduction(Passes(st, w, setup), st.maxCycles, 1, s.(status := Running),
      RunningInv(st, |s.cycles|), EndedAs(st, w, setup, |s.cycles|));
  }

  // ---------------------------------------------------------------------
  // Stuck-loop detection.

  /** `detect_infinite_loop` is false before three cycles; three last cycles
      that found the same non-empty errors, in whatever order, make it true. */
  lemma InfiniteLoopSpec(cycles: seq<CycleResult>, progress: LoopProgress)
    ensures |cycles| < 3 ==> !InfiniteLoop(cycles, progress)
    ensures var n := |cycles|;
      n >= 3 && cycles[n - 3].errorsFound != [] &&
      multiset(cycles[n - 2].errorsFound) == multiset(cycles[n - 3].errorsFound) &&
      multiset(cycles[n - 1].errorsFound) == multiset(cycles[n - 3].errorsFound) ==>
      InfiniteLoop(cycles, progress)
  {
    var n := |cycles|;
    if n >= 3 {
      SignatureOrderFree(cycles[n - 2], cycles[n - 3]);
      SignatureOrderFree(cycles[n - 1], cycles[n - 3]);
    }
  }

  // ---------------------------------------------------------------------
  // Recommendations and fix history.

  /** The advice `_generate_recommendations` gives; its wording is not kept. */
  datatype Recommendation =
    | ProjectWorking
    | RepeatedErrors
    | ManualFixes
    | MaxRetries
    | MostCommonType(category: ErrorDetector.ErrorCategory, occurrences: nat)
    | DependencyAdvice
    | SyntaxAdvice
    | TypeAdvice
    | RollBack

  /** Every error of every cycle, cycle by cycle. */
  function AllErrors(cycles: seq<CycleResult>): seq<ErrorDetector.DetectedError>
  {
    if cycles == [] then [] else AllErrors(cycles[..|cycles| - 1]) + cycles[|cycles| - 1].errorsFound
  }

  /** An entry of `error_categories`. */
  type CategoryCount = (ErrorDetector.ErrorCategory, nat)

  /** `error_categories` over `es`: each category present, in order of
      first appearance, with the number of its errors. */
  function CategoryCounts(es: seq<ErrorDetector.DetectedError>): seq<CategoryCount>
  {
    var ks := ErrorDetector.CategoriesInOrder(es);
    seq(|ks|, i requires 0 <= i < |ks| => (ks[i], |ErrorDetector.FilterCategory(es, ks[i])|))
  }

  /** The position of category `c` among the keys, `|counts|` when absent. */
  function CountIndex(counts: seq<CategoryCount>, c: ErrorDetector.ErrorCategory): (k: nat)
    ensures k <= |counts| && (k < |counts| ==> counts[k].0 == c)
    ensures forall j :: 0 <= j < k ==> counts[j].0 != c
  {
    if counts == [] then 0 else if counts[0].0 == c then 0 else 1 + CountIndex(counts[1..], c)
  }

  /** `c in error_categories`. */
  predicate HasKey(counts: seq<CategoryCount>, c: ErrorDetector.ErrorCategory)
  {
    CountIndex(counts, c) < |counts|
  }

  /** `error_categories[c] = error_categories.get(c, 0) + 1`. */
  function Bump(counts: seq<CategoryCount>, c: ErrorDetector.ErrorCategory): seq<CategoryCount>
  {
    var k := CountIndex(counts, c);
    if k == |counts| then counts + [(c, 1)] else counts[k := (c, counts[k].1 + 1)]
  }

  /** Counting one more error bumps its category's entry, or adds the
      category last with a count of one. */
  lemma CategoryCountsStep(es: seq<ErrorDetector.DetectedError>, e: ErrorDetector.DetectedError)
    ensures CategoryCounts(es + [e]) == Bump(CategoryCounts(es), e.category)
  {
    var es' := es + [e];
    assert es'[..|es'| - 1] == es;
    var ks := ErrorDetector.CategoriesInOrder(es);
    var counts := CategoryCounts(es);
    ErrorDetector.CategoriesInOrderCovers(es);
    ErrorDetector.CategoriesInOrderDistinct(es);
    var k := CountIndex(counts, e.category);
    if e.category in ks {
      var j :| 0 <= j < |ks| && ks[j] == e.category;
      assert counts[j].0 == e.category;
      assert k == j;
    } else {
      assert k == |counts|;
    }
  }

  /** The keys of `error_categories` are the categories in order of first
      appearance, each with the number of its errors. */
  lemma CountsKeys(es: seq<ErrorDetector.DetectedError>, c: ErrorDetector.ErrorCategory)
    ensures HasKey(CategoryCounts(es), c) <==> c in ErrorDetector.CategoriesInOrder(es)
    ensures HasKey(CategoryCounts(es), c) ==>
      CategoryCounts(es)[CountIndex(CategoryCounts(es), c)] == (c, |ErrorDetector.FilterCategory(es, c)|)
  {
    var counts := CategoryCounts(es);
    var ks := ErrorDetector.CategoriesInOrder(es);
    var k := CountIndex(counts, c);
    if k < |counts| {
      assert counts[k].0 == ks[k];
    }
    if c in ks {
      var j :| 0 <= j < |ks| && ks[j] == c;
      assert counts[j].0 == c;
    }
  }

  /** Each category's count is the number of its errors, never zero, and a
      category has an entry exactly when one of the errors is in it. */
  lemma CategoryCountsSpec(es: seq<ErrorDetector.DetectedError>, c: ErrorDetector.ErrorCategory)
    ensures HasKey(CategoryCounts(es), c) <==> exists e :: e in es && e.category == c
    ensures HasKey(CategoryCounts(es), c) ==>
      CategoryCounts(es)[CountIndex(CategoryCounts(es), c)].1 == |ErrorDetector.FilterCategory(es, c)| > 0
  {
    ErrorDetector.CategoriesInOrderCovers(es);
    ErrorDetector.CategoriesInOrderDistinct(es);
    CountsKeys(es, c);
    if exists e :: e in es && e.category == c {
      var e :| e in es && e.category == c;
      ErrorDetector.FilterCategoryCount(es, c, e);
      assert e in multiset(ErrorDetector.FilterCategory(es, c));
    }
  }

  /** Where `max(error_categories.items(), key=count)` stops: an entry
      with the largest count, and the first such, since every entry before
      it has a smaller count. */
  function MostCommonAt(counts: seq<CategoryCount>): (i: nat)
    requires counts != []
    ensures i < |counts|
    ensures forall j :: 0 <= j < |counts| ==> counts[j].1 <= counts[i].1
    ensures forall j :: 0 <= j < i ==> counts[j].1 < counts[i].1
  {
    if |counts| == 1 then 0
    else
      var m := MostCommonAt(counts[..|counts| - 1]);
      if counts[|counts| - 1].1 > counts[m].1 then |counts| - 1 else m
  }

  /** The entry `max` returns. */
  function MostCommon(counts: seq<CategoryCount>): CategoryCount
    requires counts != []
  {
    counts[MostCommonAt(counts)]
  }

  /** The most common entry names a category some error is in, with that
      category's number of errors, and no error's category has more. */
  lemma MostCommonSpec(es: seq<ErrorDetector.DetectedError>)
    requires es != []
    ensures CategoryCounts(es) != []
    ensures var m := MostCommon(CategoryCounts(es));
      m.1 == |ErrorDetector.FilterCategory(es, m.0)| > 0 &&
      forall e :: e in es ==> |ErrorDetector.FilterCategory(es, e.category)| <= m.1
  {
    var counts := CategoryCounts(es);
    CategoryCountsSpec(es, es[0].category);
    var m := MostCommon(counts);
    forall e | e in es ensures |ErrorDetector.FilterCategory(es, e.category)| <= m.1 {
      CategoryCountsSpec(es, e.category);
    }
    var j := MostCommonAt(counts);
    assert counts[j].0 == m.0;
    assert HasKey(counts, m.0);
    CountsKeys(es, m.0);
    CategoryCountsSpec(es, m.0);
  }

  /** The advice `_generate_recommendations` gives for the final status. */
  function StatusAdvice(status: LoopStatus): seq<Recommendation>
  {
    match status
    case StuckInLoop => [RepeatedErrors]
    case NeedsHumanHelp => [ManualFixes]
    case MaxRetriesReached => [MaxRetries]
    case _ => []
  }

  /** The advice drawn from `error_categories`. */
  function CategoryAdvice(counts: seq<CategoryCount>): (r: seq<Recommendation>)
    ensures forall x :: x in r ==> x.MostCommonType? || x in {DependencyAdvice, SyntaxAdvice, TypeAdvice}
  {
    if counts == [] then []
    else
      [MostCommonType(MostCommon(counts).0, MostCommon(counts).1)] +
      (if HasKey(counts, ErrorDetector.Dependency) then [DependencyAdvice] else []) +
      (if HasKey(counts, ErrorDetector.Syntax) then [SyntaxAdvice] else []) +
      (if HasKey(counts, ErrorDetector.Type) then [TypeAdvice] else [])
  }

  /** `_generate_recommendations`. */
  function Recommendations(status: LoopStatus, progress: LoopProgress, cycles: seq<CycleResult>): seq<Recommendation>
  {
    if status == Success then [ProjectWorking]
    else
      StatusAdvice(status) + CategoryAdvice(CategoryCounts(AllErrors(cycles))) +
      (if progress.trend == Regressing then [RollBack] else [])
  }

  /** The category advice reports the most common error type exactly when
      there is an error, with its true number of occurrences, which no other
      category exceeds; the dependency advice comes exactly when some error
      is a dependency error. */
  lemma CategoryAdviceSpec(es: seq<ErrorDetector.DetectedError>)
    ensures var a := CategoryAdvice(CategoryCounts(es));
      (DependencyAdvice in a <==> exists e :: e in es && e.category == ErrorDetector.Dependency) &&
      ((exists i :: 0 <= i < |a| && a[i].MostCommonType?) <==> es != []) &&
      (forall i :: 0 <= i < |a| && a[i].MostCommonType? ==>
        a[i].occurrences == |ErrorDetector.FilterCategory(es, a[i].category)| > 0 &&
        forall e :: e in es ==> |ErrorDetector.FilterCategory(es, e.category)| <= a[i].occurrences)
  {
    var counts := CategoryCounts(es);
    AdviceShape(counts);
    CategoryCountsSpec(es, ErrorDetector.Dependency);
    if es == [] {
      assert ErrorDetector.CategoriesInOrder(es) == [];
      assert counts == [];
    } else {
      MostCommonSpec(es);
    }
  }

  /** The most-common-type advice comes first, and only there; the
      dependency advice comes exactly when the counts have that key. */
  lemma AdviceShape(counts: seq<CategoryCount>)
    ensures var a := CategoryAdvice(counts);
      (DependencyAdvice in a <==> HasKey(counts, ErrorDetector.Dependency)) &&
      (counts == [] ==> a == []) &&
      (counts != [] ==> a[0] == MostCommonType(MostCommon(counts).0, MostCommon(counts).1) &&
                        forall i :: 1 <= i < |a| ==> !a[i].MostCommonType?)
  {
  }

  /** A successful loop gets one recommendation. Otherwise the status advice
      matches the status and the roll-back advice comes exactly when the
      trend is regressing. */
  lemma RecommendationsSpec(status: LoopStatus, progress: LoopProgress, cycles: seq<CycleResult>)
    ensures status == Success ==> Recommendations(status, progress, cycles) == [ProjectWorking]
    ensures var r := Recommendations(status, progress, cycles);
      status != Success ==>
        ProjectWorking !in r &&
        (RepeatedErrors in r <==> status == StuckInLoop) &&
        (ManualFixes in r <==> status == NeedsHumanHelp) &&
        (MaxRetries in r <==> status == MaxRetriesReached) &&
        (RollBack in r <==> progress.trend == Regressing)
  {
    if status != Success {
      var mid := CategoryAdvice(CategoryCounts(AllErrors(cycles)));
      AdviceJoin(status, mid, progress.trend == Regressing);
    }
  }

  /** Status advice, category advice and roll-back advice never mix up. */
  lemma AdviceJoin(status: LoopStatus, mid: seq<Recommendation>, regressing: bool)
    requires status != Success
    requires forall x :: x in mid ==> x.MostCommonType? || x in {DependencyAdvice, SyntaxAdvice, TypeAdvice}
    ensures var r := StatusAdvice(status) + mid + (if regressing then [RollBack] else []);
      ProjectWorking !in r &&
      (RepeatedErrors in r <==> status == StuckInLoop) &&
      (ManualFixes in r <==> status == NeedsHumanHelp) &&
      (MaxRetries in r <==> status == MaxRetriesReached) &&
      (RollBack in r <==> regressing)
  {
    var head := StatusAdvice(status);
    assert RollBack !in head && RollBack !in mid;
    assert ProjectWorking !in head && ProjectWorking !in mid;
    assert RepeatedErrors in head <==> status == StuckInLoop;
    assert ManualFixes in head <==> status == NeedsHumanHelp;
    assert MaxRetries in head <==> status == MaxRetriesReached;
  }

  /** Between the status advice and the roll-back advice of a loop that did
      not succeed sits the advice on the categories of every error found. */
  lemma RecommendationsCategories(status: LoopStatus, progress: LoopProgress, cycles: seq<CycleResult>)
    requires status != Success
    ensures var r := Recommendations(status, progress, cycles);
      r[|StatusAdvice(status)|..|r| - |(if progress.trend == Regressing then [RollBack] else [])|] ==
        CategoryAdvice(CategoryCounts(AllErrors(cycles)))
  {
    var r := Recommendations(status, progress, cycles);
    var head := StatusAdvice(status);
    var mid := CategoryAdvice(CategoryCounts(AllErrors(cycles)));
    var tail := if progress.trend == Regressing then [RollBack] else [];
    assert r == head + mid + tail;
  }

  /** `get_fix_history`: the fix attempts of every cycle, in order. */
  function FixHistory(cycles: seq<CycleResult>): seq<FixAttempt>
  {
    if cycles == [] then [] else FixHistory(cycles[..|cycles| - 1]) + cycles[|cycles| - 1].fixesAttempted
  }

  /** The successful and the failed fixes of every cycle. */
  function TotalTallied(cycles: seq<CycleResult>): nat
  {
    if cycles == [] then 0
    else TotalTallied(cycles[..|cycles| - 1]) + cycles[|cycles| - 1].fixesSuccessful + cycles[|cycles| - 1].fixesFailed
  }

  /** In a loop whose every attempt is tallied, the history holds as many
      attempts as all cycles counted successes and failures. */
  lemma {:induction false} FixHistoryTallied(cycles: seq<CycleResult>)
    requires AllTallied(cycles)
    ensures |FixHistory(cycles)| == TotalTallied(cycles)
  {
    if cycles != [] {
      FixHistoryTallied(cycles[..|cycles| - 1]);
    }
  }

  /** The last execution result, and the last test result, among `cycles`. */
  function FinalExecution(cycles: seq<CycleResult>): Option<Runner.ExecutionResult>
  {
    if cycles == [] then None
    else if cycles[|cycles| - 1].executionResult.Some? then cycles[|cycles| - 1].executionResult
    else FinalExecution(cycles[..|cycles| - 1])
  }

  function FinalTest(cycles: seq<CycleResult>): Option<TestExecutor.TestResult>
  {
    if cycles == [] then None
    else if cycles[|cycles| - 1].testResult.Some? then cycles[|cycles| - 1].testResult
    else FinalTest(cycles[..|cycles| - 1])
  }

  /** `LoopReport`, without its timestamps and summary text. */
  datatype LoopReport = LoopReport(
    status: LoopStatus,
    progress: LoopProgress,
    cycles: seq<CycleResult>,
    finalExecution: Option<Runner.ExecutionResult>,
    finalTest: Option<TestExecutor.TestResult>,
    recommendations: seq<Recommendation>)

  // ---------------------------------------------------------------------
  // The loop object.

  class VerificationLoop {
    const settings: Settings
    var status: LoopStatus
    var progress: LoopProgress
    var cycles: seq<CycleResult>
    var errorHashCounts: map<ErrorKey, nat>
    var seenErrorHashes: set<ErrorKey>
    var cancelled: bool

    /** The per-error counters. */
    function Tallies(): Tally
      reads this
    {
      Tally(errorHashCounts, seenErrorHashes)
    }

    /** The state carried from cycle to cycle. */
    function State(): LoopState
      reads this
    {
      LoopState(status, progress, cycles, Tallies())
    }

    constructor(settings: Settings)
      ensures this.settings == settings && State() == Fresh && !cancelled
    {
      this.settings := settings;
      status := NotStarted;
      progress := InitialProgress;
      cycles := [];
      errorHashCounts := map[];
      seenErrorHashes := {};
      cancelled := false;
    }

    /** `cancel`: raise the flag (the runner's own flag is not modelled). */
    method Cancel()
      modifies this`cancelled
      ensures cancelled
    {
      cancelled := true;
    }

    /** `_attempt_fix`, while the current cycle has not yet been appended;
        `raised` says a call into the auto-fixer raised. */
    method AttemptFix(w: World, error: ErrorDetector.DetectedError) returns (a: Option<FixAttempt>, raised: bool)
      modifies this`errorHashCounts, this`seenErrorHashes
      ensures (a, Tallies(), raised) == AttemptSpec(settings, w, |cycles| + 1, old(Tallies()), error)
    {
      var h := ErrorHash(error);
      var count := if h in errorHashCounts then errorHashCounts[h] else 0;
      if count >= settings.maxSameErrorAttempts {
        return None, false;
      }
      errorHashCounts := errorHashCounts[h := count + 1];
      seenErrorHashes := seenErrorHashes + {h};
      var fix := w.generate(error, |cycles| + 1);
      if fix.Threw? {
        return None, true;
      }
      if fix.value.None? {
        return None, false;
      }
      var proposed := fix.value.value;
      if proposed.confidence < settings.confidenceThreshold {
        return Some(FixAttempt(error, proposed, ConfidenceTooLow)), false;
      }
      var applied := w.apply(proposed, |cycles| + 1);
      if applied.Threw? {
        return None, true;
      }
      a, raised := Some(FixAttempt(error, proposed, Applied(applied.value))), false;
    }

    /** The fix loop of `_run_single_cycle`: one attempt per error, in order,
        tallying each attempt made as a success or a failure, until an
        attempt raises. */
    method FixErrors(w: World, errors: seq<ErrorDetector.DetectedError>)
      returns (attempts: seq<FixAttempt>, successful: nat, failed: nat, raised: bool)
      modifies this`errorHashCounts, this`seenErrorHashes
      ensures (Tallies(), attempts, successful, failed, raised) == FixAll(settings, w, |cycles| + 1, old(Tallies()), errors)
    {
      attempts, successful, failed, raised := [], 0, 0, false;
      ghost var context, t0 := |cycles| + 1, Tallies();
      var i := 0;
      while i < |errors| && !raised
        invariant 0 <= i <= |errors|
        invariant (Tallies(), attempts, successful, failed, raised) == FixAll(settings, w, context, t0, errors[..i])
      {
        ghost var x := (Tallies(), attempts, successful, failed, false);
        ghost var r := AttemptSpec(settings, w, context, x.0, errors[i]);
        FixAllStep(settings, w, context, t0, errors, i);
        assert FixAll(settings, w, context, t0, errors[..i + 1]) == Tallied(x, r);
        label Before:
        attempts, successful, failed, raised := FixNext(w, errors[i], attempts, successful, failed);
        assert |cycles| + 1 == context && old@Before(Tallies()) == x.0;
        assert (Tallies(), attempts, successful, failed, raised) == Tallied(x, r);
        i := i + 1;
      }
      if raised {
        FixAllRaised(settings, w, context, t0, errors, i);
      } else {
        assert errors[..i] == errors;
      }
    }

    /** One pass of the fix loop: attempt `error` and tally the attempt. */
    method FixNext(w: World, error: ErrorDetector.DetectedError, attempts: seq<FixAttempt>, successful: nat, failed: nat)
      returns (attempts': seq<FixAttempt>, successful': nat, failed': nat, raised: bool)
      modifies this`errorHashCounts, this`seenErrorHashes
      ensures (Tallies(), attempts', successful', failed', raised) ==
        Tallied((old(Tallies()), attempts, successful, failed, false),
                AttemptSpec(settings, w, |cycles| + 1, old(Tallies()), error))
    {
      attempts', successful', failed' := attempts, successful, failed;
      var a;
      a, raised := AttemptFix(w, error);
      if !raised && a.Some? {
        attempts' := attempts + [a.value];
        if Succeeded(a.value) {
          successful' := successful + 1;
        } else {
          failed' := failed + 1;
        }
      }
    }

    /** `_run_single_cycle` number `k`: the cycle, or None where it raises;
        either way the counters are those its fix attempts left. */
    method RunSingleCycle(w: World, k: nat, setup: bool) returns (c: Option<CycleResult>)
      modifies this`errorHashCounts, this`seenErrorHashes
      ensures (Tallies(), c) == CycleSpec(settings, w, k, setup, |cycles| + 1, old(Tallies()))
    {
      var execution := w.run(k, setup);
      if execution.None? {
        return None;
      }
      var ex := execution.value;
      var cycle := CycleResult(k, Some(ex), None, [], [], 0, 0, CyclePending);
      if ex.status != Runner.ExecutionStatus.Success && ex.status != Runner.ExecutionStatus.Timeout {
        cycle := cycle.(errorsFound := ex.errors);
        if settings.autoFix && cycle.errorsFound != [] {
          var attempts, successful, failed, raised := FixErrors(w, cycle.errorsFound);
          if raised {
            return None;
          }
          cycle := cycle.(fixesAttempted := attempts, fixesSuccessful := successful, fixesFailed := failed);
        }
        return Some(cycle.(status := ErrorsFound));
      }
      if settings.runTests && ex.status == Runner.ExecutionStatus.Success {
        var tests := w.test(k);
        if tests.None? {
          return None;
        }
        cycle := cycle.(testResult := tests);
        if !tests.value.success {
          // Reading `test_result.error_output`, which a TestResult lacks, raises.
          return None;
        }
        cycle := cycle.(status := CycleSuccess);
      } else {
        cycle := cycle.(status := if ex.status == Runner.ExecutionStatus.Success then CycleSuccess else ExecutionCompleted);
      }
      c := Some(cycle);
    }

    /** `_update_progress` after cycle `c`. */
    method UpdateProgress(c: CycleResult)
      modifies this`progress
      ensures progress == Progressed(old(progress), seenErrorHashes, c)
    {
      progress := progress.(totalCycles := progress.totalCycles + 1);
      var errors := c.errorsFound;
      progress := progress.(totalErrorsFound := progress.totalErrorsFound + |errors|,
                            errorCountHistory := progress.errorCountHistory + [|errors|]);
      progress := progress.(totalErrorsFixed := progress.totalErrorsFixed + c.fixesSuccessful);
      ghost var counted := progress;
      for i := 0 to |errors|
        invariant progress == counted.(repeatedErrors := counted.repeatedErrors + SeenCount(errors[..i], seenErrorHashes),
                                       uniqueErrorsSeen := counted.uniqueErrorsSeen + (i - SeenCount(errors[..i], seenErrorHashes)))
      {
        assert errors[..i + 1][..i] == errors[..i];
        if ErrorHash(errors[i]) in seenErrorHashes {
          progress := progress.(repeatedErrors := progress.repeatedErrors + 1);
        } else {
          progress := progress.(uniqueErrorsSeen := progress.uniqueErrorsSeen + 1);
        }
      }
      assert errors[..|errors|] == errors;
      progress := progress.(trend := Trend(progress.errorCountHistory));
    }

    /** `should_continue` after cycle `c`. */
    method ShouldContinue(c: CycleResult) returns (more: bool, reason: Reason)
      ensures (more, reason) == Decision(settings, State(), c)
    {
      if c.status == CycleSuccess {
        return false, ReasonSuccess;
      }
      if InfiniteLoop(cycles, progress) {
        return false, ReasonStuck;
      }
      if progress.trend == Regressing && |cycles| >= 3 {
        return false, ReasonRegressing;
      }
      var allExhausted := true;
      var i := 0;
      while i < |c.errorsFound|
        invariant 0 <= i <= |c.errorsFound|
        invariant allExhausted
        invariant forall j :: 0 <= j < i ==> Count(Tallies(), ErrorHash(c.errorsFound[j])) >= settings.maxSameErrorAttempts
      {
        var h := ErrorHash(c.errorsFound[i]);
        var count := if h in errorHashCounts then errorHashCounts[h] else 0;
        if count < settings.maxSameErrorAttempts {
          allExhausted := false;
          break;
        }
        i := i + 1;
      }
      assert allExhausted <==> Exhausted(settings, Tallies(), c.errorsFound);
      if allExhausted && c.errorsFound != [] {
        return false, ReasonNeedsHelp;
      }
      if c.errorsFound != [] && |cycles| < settings.maxCycles {
        return true, ReasonErrorsRemaining;
      }
      if c.errorsFound == [] {
        return false, ReasonSuccess;
      }
      return true, ReasonContinue;
    }

    /** The counting loops of `_generate_recommendations`. */
    method CountCategories() returns (counts: seq<CategoryCount>)
      ensures counts == CategoryCounts(AllErrors(cycles))
    {
      counts := [];
      for i := 0 to |cycles|
        invariant counts == CategoryCounts(AllErrors(cycles[..i]))
      {
        assert cycles[..i + 1][..i] == cycles[..i];
        counts := CountErrors(counts, AllErrors(cycles[..i]), cycles[i].errorsFound);
      }
      assert cycles[..|cycles|] == cycles;
    }

    /** Adds the errors of one cycle to the counts of the errors before it. */
    static method CountErrors(counts: seq<CategoryCount>, ghost before: seq<ErrorDetector.DetectedError>,
                              errors: seq<ErrorDetector.DetectedError>) returns (counts': seq<CategoryCount>)
      requires counts == CategoryCounts(before)
      ensures counts' == CategoryCounts(before + errors)
    {
      counts' := counts;
      assert before + errors[..0] == before;
      for j := 0 to |errors|
        invariant counts' == CategoryCounts(before + errors[..j])
      {
        CategoryCountsStep(before + errors[..j], errors[j]);
        assert before + errors[..j] + [errors[j]] == before + errors[..j + 1];
        counts' := Bump(counts', errors[j].category);
      }
      assert errors[..|errors|] == errors;
    }

    /** The advice `_generate_recommendations` draws from `error_categories`. */
    static method AdviseOnCategories(counts: seq<CategoryCount>) returns (advice: seq<Recommendation>)
      ensures advice == CategoryAdvice(counts)
    {
      advice := [];
      if counts != [] {
        var most := MostCommon(counts);
        advice := advice + [MostCommonType(most.0, most.1)];
        if HasKey(counts, ErrorDetector.Dependency) {
          advice := advice + [DependencyAdvice];
        }
        if HasKey(counts, ErrorDetector.Syntax) {
          advice := advice + [SyntaxAdvice];
        }
        if HasKey(counts, ErrorDetector.Type) {
          advice := advice + [TypeAdvice];
        }
      }
    }

    /** `_generate_recommendations`. */
    method GenerateRecommendations() returns (recs: seq<Recommendation>)
      ensures recs == Recommendations(status, progress, cycles)
    {
      if status == Success {
        return [ProjectWorking];
      }
      recs := [];
      if status == StuckInLoop {
        recs := recs + [RepeatedErrors];
      } else if status == NeedsHumanHelp {
        recs := recs + [ManualFixes];
      } else if status == MaxRetriesReached {
        recs := recs + [MaxRetries];
      }
      assert recs == StatusAdvice(status);
      ghost var head := recs;
      var counts := CountCategories();
      var advice := AdviseOnCategories(counts);
      recs := recs + advice;
      if progress.trend == Regressing {
        recs := recs + [RollBack];
      }
    }

    /** `get_fix_history`. */
    method GetFixHistory() returns (fixes: seq<FixAttempt>)
      ensures fixes == FixHistory(cycles)
    {
      fixes := [];
      for i := 0 to |cycles|
        invariant fixes == FixHistory(cycles[..i])
      {
        assert cycles[..i + 1][..i] == cycles[..i];
        fixes := fixes + cycles[i].fixesAttempted;
      }
      assert cycles[..|cycles|] == cycles;
    }

    /** One pass of the loop in `run_development_cycle`, at cycle `k`: the
        pass `Step` describes, up to the check after the loop; `c` is the
        cycle appended, and `raised` says the cycle raised. */
    method Pass(w: World, setup: bool, k: nat) returns (more: bool, raised: bool, c: Option<CycleResult>)
      requires status == Running && !cancelled
      modifies this
      ensures var (s', go) := Step(settings, w, setup, k, old(State()));
        more == go && (more ==> State() == s') && (!more ==> Finalize(settings.maxCycles, State()) == s')
      ensures more ==> !cancelled && status == Running
      ensures raised ==> !more && status == Failed
      ensures cycles == old(cycles) + (if c.Some? then [c.value] else [])
    {
      if CancelledBy(w.cancelAt, k) {
        Cancel();
      }
      if cancelled {
        status := Cancelled;
        return false, false, None;
      }
      more, raised, c := Record(w, setup, k);
    }

    /** The part of a pass after the cancel check: run cycle `k`, record it
        and ask whether to go on. */
    method Record(w: World, setup: bool, k: nat) returns (more: bool, raised: bool, c: Option<CycleResult>)
      requires status == Running
      modifies this`status, this`progress, this`cycles, this`errorHashCounts, this`seenErrorHashes
      ensures var (s', go) := StepWith(settings, old(State()), false,
                                       CycleSpec(settings, w, k, setup && k == 1, old(|cycles|) + 1, old(Tallies())));
        more == go && (more ==> State() == s') && (!more ==> Finalize(settings.maxCycles, State()) == s')
      ensures more ==> status == Running
      ensures raised ==> !more && status == Failed
      ensures cycles == old(cycles) + (if c.Some? then [c.value] else [])
    {
      ghost var s := State();
      ghost var out := CycleSpec(settings, w, k, setup && k == 1, |cycles| + 1, Tallies());
      c := RunSingleCycle(w, k, setup && k == 1);
      if c.None? {
        status := Failed;
        assert State() == s.(status := Failed, tally := out.0);
        return false, true, None;
      }
      assert out == (Tallies(), c);
      cycles := cycles + [c.value];
      UpdateProgress(c.value);
      ghost var s' := State();
      assert s' == Recorded(s, Tallies(), c.value);
      var reason;
      more, reason := ShouldContinue(c.value);
      raised := false;
      if !more {
        if reason == ReasonSuccess {
          status := Success;
        } else if reason == ReasonStuck {
          status := StuckInLoop;
        } else if reason == ReasonNeedsHelp {
          status := NeedsHumanHelp;
        }
        assert State() == s'.(status := StatusAfter(reason, s'.status));
      }
      assert StepWith(settings, s, false, out) ==
        if more then (s', true) else (Stopped(settings, s', c.value), false);
    }

    /** `run_development_cycle`: the state it leaves is `Run`'s, and the
        report holds that state, the last execution and test results of
        this call's cycles, and the recommendations. */
    method RunDevelopmentCycle(w: World, setup: bool) returns (report: LoopReport)
      modifies this
      ensures State() == Run(settings, w, setup, old(State()))
      ensures old(|cycles|) <= |cycles|
      ensures report == LoopReport(status, progress, cycles, FinalExecution(cycles[old(|cycles|)..]),
                                   FinalTest(cycles[old(|cycles|)..]), Recommendations(status, progress, cycles))
    {
      ghost var s0 := State();
      status := Running;
      cancelled := false;
      assert State() == s0.(status := Running);
      var finalExecution, finalTest, raised := RunPasses(w, setup);
      if !raised && |cycles| >= settings.maxCycles && status == Running {
        status := MaxRetriesReached;
      }
      var recommendations := GenerateRecommendations();
      report := LoopReport(status, progress, cycles, finalExecution, finalTest, recommendations);
    }

    /** The `for` loop of `run_development_cycle`, from RUNNING with the
        flag clear: up to `max_cycles` passes, each one while the previous
        one said go on; it also keeps the last execution and test results
        of the cycles it adds. */
    method RunPasses(w: World, setup: bool)
      returns (finalExecution: Option<Runner.ExecutionResult>, finalTest: Option<TestExecutor.TestResult>,
               raised: bool)
      requires status == Running && !cancelled
      modifies this
      ensures Finalize(settings.maxCycles, State()) == Drive(Passes(settings, w, setup), settings.maxCycles, 1, old(State()))
      ensures old(|cycles|) <= |cycles|
      ensures finalExecution == FinalExecution(cycles[old(|cycles|)..]) && finalTest == FinalTest(cycles[old(|cycles|)..])
      ensures raised ==> status == Failed
    {
      ghost var n0 := |cycles|;
      ghost var pass := Passes(settings, w, setup);
      ghost var total := Drive(pass, settings.maxCycles, 1, State());
      finalExecution := None;
      finalTest := None;
      raised := false;
      var stop := false;
      var k := 1;
      while k <= settings.maxCycles && !stop
        invariant 1 <= k <= settings.maxCycles + 1
        invariant n0 <= |cycles|
        invariant finalExecution == FinalExecution(cycles[n0..]) && finalTest == FinalTest(cycles[n0..])
        invariant !stop ==> !cancelled && status == Running && total == Drive(pass, settings.maxCycles, k, State())
        invariant stop ==> total == Finalize(settings.maxCycles, State())
        invariant raised ==> status == Failed
        decreases settings.maxCycles + 1 - k, if stop then 0 else 1
      {
        ghost var before := cycles;
        DriveStep(settings, w, setup, k, State());
        var more, c;
        more, raised, c := Pass(w, setup, k);
        if c.None? {
          assert cycles == before;
        } else {
          assert cycles == before + [c.value];
          PassRecorded(before, c.value, n0, finalExecution, finalTest);
          if c.value.executionResult.Some? {
            finalExecution := c.value.executionResult;
          }
          if c.value.testResult.Some? {
            finalTest := c.value.testResult;
          }
        }
        stop := !more;
        k := k + 1;
      }
      if !stop {
        assert total == Finalize(settings.maxCycles, State());
      }
    }
  }

  /** One pass of `Drive` over the passes of `run_development_cycle`. */
  lemma DriveStep(st: Settings, w: World, setup: bool, k: nat, s: LoopState)
    requires 1 <= k <= st.maxCycles
    ensures Drive(Passes(st, w, setup), st.maxCycles, k, s) ==
      var (s', more) := Step(st, w, setup, k, s);
      if more then Drive(Passes(st, w, setup), st.maxCycles, k + 1, s') else s'
  {
    assert Passes(st, w, setup)(k, s) == Step(st, w, setup, k, s);
  }

  /** Appending a cycle extends the final results of this call's cycles. */
  lemma PassRecorded(cycles: seq<CycleResult>, c: CycleResult, n0: nat,
      finalExecution: Option<Runner.ExecutionResult>, finalTest: Option<TestExecutor.TestResult>)
    requires n0 <= |cycles|
    requires finalExecution == FinalExecution(cycles[n0..]) && finalTest == FinalTest(cycles[n0..])
    ensures var cs := (cycles + [c])[n0..];
      FinalExecution(cs) == (if c.executionResult.Some? then c.executionResult else finalExecution) &&
      FinalTest(cs) == (if c.testResult.Some? then c.testResult else finalTest)
  {
    var cs := (cycles + [c])[n0..];
    assert cs[..|cs| - 1] == cycles[n0..];
  }
}
