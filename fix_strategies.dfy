/** Fix strategies and the fixers that use them
    (ai_orchestrator/execution/fix_strategies.py).

    The registry keeps strategies in registration order and answers
    "which strategies apply to this error, best first" with a filter and a
    stable sort on confidence. The fixers pull a package, module, port, path
    or variable name out of an error message, and the permission and `.env`
    fixers change the filesystem and record what is needed to undo it.
    Confidences are kept in hundredths (`0.85` is 85); they are only compared. */
module FixStrategies {
  import opened Text
  import opened Files
  import opened ErrorDetector

  datatype FixType =
    | DependencyFix | ImportFix | SyntaxFix | ConfigurationFix | PortFix
    | PermissionFix | FileCreation | CodeModification | CommandFix

  datatype FixStrategy = FixStrategy(
    name: string,
    description: string,
    fixType: FixType,
    errorCategories: seq<ErrorCategory>,
    confidence: nat,
    command: Option<string>,
    requiresRestart: bool,
    isSafe: bool)

  /** What a fix records so that it can be undone. */
  datatype Rollback =
    | NoRollback
    | RestoreMode(path: string, oldMode: nat)
    | RemoveCreated(createdFile: string)

  datatype FixResult = FixResult(
    success: bool,
    strategy: FixStrategy,
    message: string,
    changesMade: seq<string>,
    rollback: Rollback)

  // ---------------------------------------------------------------------
  // The built-in strategies, in registration order.

  const NpmInstall := FixStrategy("npm_install", "Install missing npm packages", DependencyFix,
    [Dependency, Import], 90, Some("npm install"), true, true)
  const NpmCleanInstall := FixStrategy("npm_clean_install", "Clean install npm packages", DependencyFix,
    [Dependency], 80, Some("rm -rf node_modules package-lock.json && npm install"), true, true)
  const PipInstallRequirements := FixStrategy("pip_install_requirements", "Install Python requirements", DependencyFix,
    [Dependency, Import], 90, Some("pip install -r requirements.txt"), true, true)
  const PipInstallModule := FixStrategy("pip_install_module", "Install specific Python module", DependencyFix,
    [Import], 85, None, true, true)
  const NpmInstallModule := FixStrategy("npm_install_module", "Install specific npm package", DependencyFix,
    [Import], 85, None, true, true)
  const KillPortProcess := FixStrategy("kill_port_process", "Kill process using the port", PortFix,
    [PortInUse], 90, None, true, true)
  const ChangePort := FixStrategy("change_port", "Change application port", PortFix,
    [PortInUse], 70, None, true, true)
  const FixFilePermissionsStrategy := FixStrategy("fix_file_permissions", "Fix file permissions", PermissionFix,
    [Permission], 80, None, false, true)
  const FixDirectoryPermissionsStrategy := FixStrategy("fix_directory_permissions", "Fix directory permissions", PermissionFix,
    [Permission], 80, None, false, true)
  const CreateEnvFile := FixStrategy("create_env_file", "Create .env file from template", ConfigurationFix,
    [Configuration, FileNotFound], 90, None, false, true)
  const FixConfigSyntax := FixStrategy("fix_config_syntax", "Fix configuration file syntax", ConfigurationFix,
    [Configuration, Syntax], 60, None, false, true)
  const FixRelativeImport := FixStrategy("fix_relative_import", "Fix relative import path", ImportFix,
    [Import], 70, None, false, true)
  const AddMissingImport := FixStrategy("add_missing_import", "Add missing import statement", ImportFix,
    [Import], 75, None, false, true)
  const FixIndentation := FixStrategy("fix_indentation", "Fix Python indentation", SyntaxFix,
    [Syntax], 70, None, false, true)
  const FixBracketMismatch := FixStrategy("fix_bracket_mismatch", "Fix bracket/parenthesis mismatch", SyntaxFix,
    [Syntax], 60, None, false, true)
  const FixMissingSemicolon := FixStrategy("fix_missing_semicolon", "Add missing semicolons", SyntaxFix,
    [Syntax], 80, None, false, true)

  const DependencyDefaults := [NpmInstall, NpmCleanInstall, PipInstallRequirements, PipInstallModule, NpmInstallModule]
  const PortDefaults := [KillPortProcess, ChangePort]
  const PermissionDefaults := [FixFilePermissionsStrategy, FixDirectoryPermissionsStrategy]
  const ConfigurationDefaults := [CreateEnvFile, FixConfigSyntax]
  const ImportDefaults := [FixRelativeImport, AddMissingImport]
  const SyntaxDefaults := [FixIndentation, FixBracketMismatch, FixMissingSemicolon]

  const DefaultStrategies: seq<FixStrategy> :=
    DependencyDefaults + PortDefaults + PermissionDefaults + ConfigurationDefaults + ImportDefaults + SyntaxDefaults

  /** The default `min_confidence` of a lookup, 0.5. */
  const DefaultMinConfidence: nat := 50

  /** Every built-in confidence lies in [0, 1]. */
  lemma DefaultConfidencesInRange()
    ensures |DefaultStrategies| == 16
    ensures forall s :: s in DefaultStrategies ==> s.confidence <= 100
  {
  }

  // ---------------------------------------------------------------------
  // Lookup: filter, then stable sort on confidence, best first.

  predicate Applies(s: FixStrategy, c: ErrorCategory, minConfidence: nat)
  {
    c in s.errorCategories && s.confidence >= minConfidence
  }

  /** The comprehension of `get_strategies_for_error`, in registration order. */
  function Applicable(ss: seq<FixStrategy>, c: ErrorCategory, minConfidence: nat): (r: seq<FixStrategy>)
    ensures forall s :: s in r <==> s in ss && Applies(s, c, minConfidence)
  {
    if ss == [] then []
    else (if Applies(ss[0], c, minConfidence) then [ss[0]] else []) + Applicable(ss[1..], c, minConfidence)
  }

  /** Non-increasing confidence. */
  predicate SortedDesc(xs: seq<FixStrategy>)
  {
    forall i, j :: 0 <= i < j < |xs| ==> xs[i].confidence >= xs[j].confidence
  }

  /** The strategies of `xs` with confidence `v`, in their order in `xs`. */
  function WithConfidence(xs: seq<FixStrategy>, v: nat): seq<FixStrategy>
  {
    if xs == [] then []
    else (if xs[0].confidence == v then [xs[0]] else []) + WithConfidence(xs[1..], v)
  }

  /** Puts `x` in front of every strategy that is not more confident. */
  function InsertByConfidence(x: FixStrategy, ys: seq<FixStrategy>): (r: seq<FixStrategy>)
    ensures multiset(r) == multiset(ys) + multiset{x}
  {
    if ys == [] || ys[0].confidence <= x.confidence then [x] + ys
    else
      assert ys == [ys[0]] + ys[1..];
      [ys[0]] + InsertByConfidence(x, ys[1..])
  }

  /** `sorted(xs, key=confidence, reverse=True)`, which is stable. */
  function SortByConfidence(xs: seq<FixStrategy>): (r: seq<FixStrategy>)
    ensures multiset(r) == multiset(xs)
    ensures forall s :: s in r <==> s in xs
  {
    if xs == [] then []
    else
      assert xs == [xs[0]] + xs[1..];
      var r := InsertByConfidence(xs[0], SortByConfidence(xs[1..]));
      assert forall s :: s in r <==> s in multiset(r);
      r
  }

  /** A strategy at least as confident as every one of a sorted list can
      go in front of it. */
  lemma ConsSorted(y: FixStrategy, t: seq<FixStrategy>)
    requires SortedDesc(t) && forall i :: 0 <= i < |t| ==> t[i].confidence <= y.confidence
    ensures SortedDesc([y] + t)
  {
    var r := [y] + t;
    forall i, j | 0 <= i < j < |r| ensures r[i].confidence >= r[j].confidence {
      assert r[j] == t[j - 1];
      if i > 0 {
        assert r[i] == t[i - 1];
      }
    }
  }

  lemma {:induction false} InsertSorted(x: FixStrategy, ys: seq<FixStrategy>)
    requires SortedDesc(ys)
    ensures SortedDesc(InsertByConfidence(x, ys))
  {
    if ys != [] && ys[0].confidence > x.confidence {
      var rest := ys[1..];
      InsertSorted(x, rest);
      var tail := InsertByConfidence(x, rest);
      assert InsertByConfidence(x, ys) == [ys[0]] + tail;
      forall i | 0 <= i < |tail| ensures tail[i].confidence <= ys[0].confidence {
        assert tail[i] in multiset(tail);
        if tail[i] != x {
          assert tail[i] in multiset(rest);
          var k :| 0 <= k < |rest| && rest[k] == tail[i];
          assert ys[k + 1] == tail[i];
        }
      }
      ConsSorted(ys[0], tail);
    }
  }

  lemma {:induction false} SortSorted(xs: seq<FixStrategy>)
    ensures SortedDesc(SortByConfidence(xs))
  {
    if xs != [] {
      SortSorted(xs[1..]);
      InsertSorted(xs[0], SortByConfidence(xs[1..]));
    }
  }

  lemma WithConfidenceCons(y: FixStrategy, ys: seq<FixStrategy>, v: nat)
    ensures WithConfidence([y] + ys, v) == (if y.confidence == v then [y] else []) + WithConfidence(ys, v)
  {
    assert ([y] + ys)[1..] == ys;
  }

  /** Inserting keeps `x` ahead of the strategies of equal confidence. */
  lemma {:induction false} InsertStable(x: FixStrategy, ys: seq<FixStrategy>, v: nat)
    ensures WithConfidence(InsertByConfidence(x, ys), v)
         == (if x.confidence == v then [x] else []) + WithConfidence(ys, v)
  {
    if ys == [] || ys[0].confidence <= x.confidence {
      WithConfidenceCons(x, ys, v);
    } else {
      InsertStable(x, ys[1..], v);
      assert InsertByConfidence(x, ys) == [ys[0]] + InsertByConfidence(x, ys[1..]);
      WithConfidenceCons(ys[0], InsertByConfidence(x, ys[1..]), v);
      assert ys == [ys[0]] + ys[1..];
      WithConfidenceCons(ys[0], ys[1..], v);
      assert ys[0].confidence != v || x.confidence != v;
    }
  }

  /** Ties keep their relative order. */
  lemma {:induction false} SortStable(xs: seq<FixStrategy>)
    ensures forall v :: WithConfidence(SortByConfidence(xs), v) == WithConfidence(xs, v)
  {
    if xs != [] {
      SortStable(xs[1..]);
      forall v ensures WithConfidence(SortByConfidence(xs), v) == WithConfidence(xs, v)
      {
        InsertStable(xs[0], SortByConfidence(xs[1..]), v);
      }
    }
  }

  /** The comprehension of `get_strategies_by_type`. */
  function OfType(ss: seq<FixStrategy>, t: FixType): (r: seq<FixStrategy>)
    ensures forall s :: s in r <==> s in ss && s.fixType == t
    ensures IsSubsequence(r, ss)
  {
    if ss == [] then []
    else if ss[0].fixType == t then [ss[0]] + OfType(ss[1..], t)
    else OfType(ss[1..], t)
  }

  class FixStrategyRegistry {
    var strategies: seq<FixStrategy>

    /** A registry holding the built-in strategies. */
    constructor()
      ensures strategies == DefaultStrategies
    {
      strategies := [];
      new;
      RegisterDependencyDefaults();
      RegisterPortDefaults();
      RegisterPermissionDefaults();
      RegisterConfigurationDefaults();
      RegisterImportDefaults();
      RegisterSyntaxDefaults();
    }

    method RegisterDependencyDefaults()
      modifies this
      ensures strategies == old(strategies) + DependencyDefaults
    {
      Register(NpmInstall);
      Register(NpmCleanInstall);
      Register(PipInstallRequirements);
      Register(PipInstallModule);
      Register(NpmInstallModule);
    }

    method RegisterPortDefaults()
      modifies this
      ensures strategies == old(strategies) + PortDefaults
    {
      Register(KillPortProcess);
      Register(ChangePort);
    }

    method RegisterPermissionDefaults()
      modifies this
      ensures strategies == old(strategies) + PermissionDefaults
    {
      Register(FixFilePermissionsStrategy);
      Register(FixDirectoryPermissionsStrategy);
    }

    method RegisterConfigurationDefaults()
      modifies this
      ensures strategies == old(strategies) + ConfigurationDefaults
    {
      Register(CreateEnvFile);
      Register(FixConfigSyntax);
    }

    method RegisterImportDefaults()
      modifies this
      ensures strategies == old(strategies) + ImportDefaults
    {
      Register(FixRelativeImport);
      Register(AddMissingImport);
    }

    method RegisterSyntaxDefaults()
      modifies this
      ensures strategies == old(strategies) + SyntaxDefaults
    {
      Register(FixIndentation);
      Register(FixBracketMismatch);
      Register(FixMissingSemicolon);
    }

    method Register(strategy: FixStrategy)
      modifies this
      ensures strategies == old(strategies) + [strategy]
    {
      strategies := strategies + [strategy];
    }

    /** Exactly the registered strategies that apply, most confident first,
        ties in registration order. */
    function GetStrategiesForError(error: DetectedError, minConfidence: nat): (r: seq<FixStrategy>)
      reads this
      ensures forall s :: s in r <==> s in strategies && Applies(s, error.category, minConfidence)
      ensures multiset(r) == multiset(Applicable(strategies, error.category, minConfidence))
      ensures SortedDesc(r)
      ensures forall v :: WithConfidence(r, v) == WithConfidence(Applicable(strategies, error.category, minConfidence), v)
    {
      var applicable := Applicable(strategies, error.category, minConfidence);
      SortSorted(applicable);
      SortStable(applicable);
      SortByConfidence(applicable)
    }

    /** The registered strategies of one type, in registration order. */
    function GetStrategiesByType(t: FixType): (r: seq<FixStrategy>)
      reads this
      ensures forall s :: s in r <==> s in strategies && s.fixType == t
      ensures IsSubsequence(r, strategies)
    {
      OfType(strategies, t)
    }
  }

  // ---------------------------------------------------------------------
  // Extractors: the first pattern that matches decides.

  const NpmPackagePatterns := [
    Re("Cannot find module ['\\\"]([^'\\\"]+)['\\\"]"),
    Re("Module not found: ['\\\"]([^'\\\"]+)['\\\"]"),
    Re("Cannot find package ['\\\"]([^'\\\"]+)['\\\"]"),
    Re("npm ERR! missing: ([^,@]+)")]

  /** The package a module specifier names: a scoped `@scope/pkg/...` keeps
      its first two `/` segments (`split("/")[0] + "/" + split("/")[1]`), any
      other specifier its first one (`split("/")[0]`). */
  function NpmPackageName(m: string): string
  {
    if StartsWith(m, "@") then
      if '/' in m then BeforeFirst(m, '/') + "/" + BeforeFirst(AfterFirst(m, '/'), '/') else m
    else BeforeFirst(m, '/')
  }

  /** The first match that is not a relative specifier decides; a relative
      one (starting with ".") moves on to the next pattern. */
  function FirstPackage(re: Regex, ps: seq<Pattern>, text: string): Option<string>
  {
    if ps == [] then None
    else match re.group(ps[0], text)
      case Some(m) =>
        if !StartsWith(m, ".") then Some(NpmPackageName(m)) else FirstPackage(re, ps[1..], text)
      case None => FirstPackage(re, ps[1..], text)
  }

  function ExtractMissingNpmPackage(re: Regex, error: DetectedError): Option<string>
  {
    FirstPackage(re, NpmPackagePatterns, error.message)
  }

  /** A relative specifier is never returned: the package comes from the
      first pattern whose capture is not relative. */
  lemma {:induction false} FirstPackageSpec(re: Regex, ps: seq<Pattern>, text: string)
    ensures FirstPackage(re, ps, text).None? <==>
      forall k :: 0 <= k < |ps| ==> re.group(ps[k], text).None? || StartsWith(re.group(ps[k], text).value, ".")
    ensures FirstPackage(re, ps, text).Some? ==>
      exists k :: 0 <= k < |ps| && re.group(ps[k], text).Some? &&
        !StartsWith(re.group(ps[k], text).value, ".") &&
        FirstPackage(re, ps, text) == Some(NpmPackageName(re.group(ps[k], text).value))
  {
    if ps != [] {
      FirstPackageSpec(re, ps[1..], text);
      var g := re.group(ps[0], text);
      if g.Some? && !StartsWith(g.value, ".") {
      } else {
        forall k | 0 < k < |ps|
          ensures ps[k] == ps[1..][k - 1]
        {
        }
        if FirstPackage(re, ps, text).Some? {
          var k :| 0 <= k < |ps[1..]| && re.group(ps[1..][k], text).Some? &&
            !StartsWith(re.group(ps[1..][k], text).value, ".") &&
            FirstPackage(re, ps[1..], text) == Some(NpmPackageName(re.group(ps[1..][k], text).value));
          assert ps[1..][k] == ps[k + 1];
        }
      }
    }
  }

  /** No package name extracted from a message starts with ".". */
  lemma NpmPackageNeverRelative(re: Regex, error: DetectedError)
    ensures ExtractMissingNpmPackage(re, error).Some? ==> !StartsWith(ExtractMissingNpmPackage(re, error).value, ".")
  {
    FirstPackageSpec(re, NpmPackagePatterns, error.message);
    if ExtractMissingNpmPackage(re, error).Some? {
      var ps := NpmPackagePatterns;
      var k :| 0 <= k < |ps| && re.group(ps[k], error.message).Some? &&
        !StartsWith(re.group(ps[k], error.message).value, ".") &&
        ExtractMissingNpmPackage(re, error) == Some(NpmPackageName(re.group(ps[k], error.message).value));
      NpmPackageNameNotRelative(re.group(ps[k], error.message).value);
    }
  }

  lemma NpmPackageNameNotRelative(m: string)
    requires !StartsWith(m, ".")
    ensures !StartsWith(NpmPackageName(m), ".")
  {
    var n := NpmPackageName(m);
    if |n| > 0 && !StartsWith(m, "@") {
      assert n[0] == m[0];
    } else if |n| > 0 {
      assert m[0] == '@';
      if '/' in m {
        assert |BeforeFirst(m, '/')| > 0 && n[0] == BeforeFirst(m, '/')[0] == m[0];
      }
    }
  }

  /** `@scope/pkg/sub/path` names the package `@scope/pkg`. */
  lemma ScopedPackageName(scope: string, pkg: string, rest: string)
    requires StartsWith(scope, "@") && '/' !in scope && '/' !in pkg
    requires rest == [] || rest[0] == '/'
    ensures NpmPackageName(scope + "/" + pkg + rest) == scope + "/" + pkg
  {
    var m := scope + "/" + pkg + rest;
    assert m[|scope|] == '/';
    BeforeFirstAt(m, scope, pkg + rest, '/');
    assert m == scope + "/" + (pkg + rest);
    BeforeFirstAt(pkg + rest, pkg, if rest == [] then [] else rest[1..], '/');
  }

  /** `pkg/sub/path` names the package `pkg`. */
  lemma UnscopedPackageName(pkg: string, rest: string)
    requires !StartsWith(pkg, "@") && '/' !in pkg
    requires rest == [] || rest[0] == '/'
    ensures NpmPackageName(pkg + rest) == pkg
  {
    if |pkg| > 0 {
      assert (pkg + rest)[0] == pkg[0];
    } else {
      assert pkg + rest == rest;
    }
    BeforeFirstAt(pkg + rest, pkg, if rest == [] then [] else rest[1..], '/');
  }

  /** Splitting `a + [sep] + b` (or just `a`) where `a` has no separator. */
  lemma {:induction false} BeforeFirstAt(s: string, a: string, b: string, sep: char)
    requires sep !in a
    requires s == a + [sep] + b || (s == a && b == [])
    ensures BeforeFirst(s, sep) == a
    ensures s == a + [sep] + b ==> AfterFirst(s, sep) == b
  {
    if a != [] {
      assert (s[0] == a[0] && s[1..] == a[1..] + [sep] + b) || (s == a && s[1..] == a[1..]);
      BeforeFirstAt(s[1..], a[1..], b, sep);
    } else if s == a + [sep] + b {
      assert s == [sep] + b;
    }
  }

  const PythonModulePatterns := [
    Re("No module named ['\\\"]?([^'\\\"]+)['\\\"]?"),
    Re("ModuleNotFoundError: No module named ['\\\"]?([^'\\\"]+)['\\\"]?"),
    Re("ImportError: cannot import name ['\\\"]?(\\w+)['\\\"]?")]

  /** The top-level module, `split(".")[0]` of the first capture. */
  function ExtractMissingPythonModule(re: Regex, error: DetectedError): Option<string>
  {
    match FirstGroup(re, PythonModulePatterns, error.message)
    case Some(m) => Some(BeforeFirst(m, '.'))
    case None => None
  }

  /** `requests.adapters` names the module `requests`. */
  lemma PythonModuleIsTopLevel(re: Regex, error: DetectedError)
    ensures ExtractMissingPythonModule(re, error).None? <==>
      forall k :: 0 <= k < |PythonModulePatterns| ==> re.group(PythonModulePatterns[k], error.message).None?
    ensures ExtractMissingPythonModule(re, error).Some? ==>
      var name := ExtractMissingPythonModule(re, error).value;
      var captured := FirstGroup(re, PythonModulePatterns, error.message).value;
      '.' !in name && name <= captured && (|name| < |captured| ==> captured[|name|] == '.')
  {
    FirstGroupSpec(re, PythonModulePatterns, error.message);
  }

  const PortPatterns := [
    ReI("EADDRINUSE.*:(\\d+)"),
    ReI("address already in use.*:(\\d+)"),
    ReI("port (\\d+).*already in use"),
    ReI("bind.*:(\\d+)")]

  /** The port named by the first matching pattern (case-insensitive). */
  function ExtractPort(re: Regex, error: DetectedError): Option<nat>
  {
    FirstNumber(re, PortPatterns, error.message)
  }

  const PathPatterns := [
    Re("EACCES:.*['\\\"]([^'\\\"]+)['\\\"]"),
    Re("Permission denied: ['\\\"]?([^'\\\"]+)['\\\"]?"),
    Re("PermissionError:.*['\\\"]([^'\\\"]+)['\\\"]")]

  function ExtractPath(re: Regex, error: DetectedError): Option<string>
  {
    FirstGroup(re, PathPatterns, error.message)
  }

  const EnvVarPatterns := [
    Re("Environment variable ['\\\"]?(\\w+)['\\\"]? not set"),
    Re("Missing required.*['\\\"]?(\\w+)['\\\"]?"),
    Re("(\\w+_\\w+) is not defined"),
    Re("process\\.env\\.(\\w+)")]

  function ExtractMissingEnvVar(re: Regex, error: DetectedError): Option<string>
  {
    FirstGroup(re, EnvVarPatterns, error.message)
  }

  /** The port, path and variable extractors answer with the capture of the
      first pattern, in order, that matches the message, and with None
      exactly when none matches. */
  lemma ExtractorsFirstMatch(re: Regex, error: DetectedError)
    ensures ExtractPath(re, error).None? <==>
      forall k :: 0 <= k < |PathPatterns| ==> re.group(PathPatterns[k], error.message).None?
    ensures ExtractPath(re, error).Some? ==>
      exists k :: 0 <= k < |PathPatterns| && re.group(PathPatterns[k], error.message) == ExtractPath(re, error) &&
        forall j :: 0 <= j < k ==> re.group(PathPatterns[j], error.message).None?
    ensures ExtractMissingEnvVar(re, error).None? <==>
      forall k :: 0 <= k < |EnvVarPatterns| ==> re.group(EnvVarPatterns[k], error.message).None?
    ensures ExtractMissingEnvVar(re, error).Some? ==>
      exists k :: 0 <= k < |EnvVarPatterns| &&
        re.group(EnvVarPatterns[k], error.message) == ExtractMissingEnvVar(re, error) &&
        forall j :: 0 <= j < k ==> re.group(EnvVarPatterns[j], error.message).None?
    ensures ExtractPort(re, error).Some? ==>
      exists k :: 0 <= k < |PortPatterns| && re.numbers(PortPatterns[k], error.message).Some? &&
        Group(re.numbers(PortPatterns[k], error.message).value, 0) == ExtractPort(re, error) &&
        forall j :: 0 <= j < k ==> re.numbers(PortPatterns[j], error.message).None?
    ensures (forall k :: 0 <= k < |PortPatterns| ==> re.numbers(PortPatterns[k], error.message).None?) ==>
      ExtractPort(re, error).None?
  {
    FirstGroupSpec(re, PathPatterns, error.message);
    FirstGroupSpec(re, EnvVarPatterns, error.message);
    FirstNumberSpec(re, PortPatterns, error.message);
  }

  // ---------------------------------------------------------------------
  // Permission fixes.

  /** Python's `oct(n)`. */
  function Oct(n: nat): string
  {
    "0o" + OctDigits(n)
  }

  function OctDigits(n: nat): (r: string)
    ensures |r| >= 1
  {
    if n < 8 then [DigitChar(n)] else OctDigits(n / 8) + [DigitChar(n % 8)]
  }

  /** The default modes, `0o644` for files and `0o755` for directories. */
  const DefaultFileMode: nat := 420
  const DefaultDirectoryMode: nat := 493

  function PermissionStrategy(name: string, description: string): FixStrategy
  {
    FixStrategy(name, description, PermissionFix, [Permission], 80, None, false, true)
  }

  /** chmod `path` to `mode`; a missing path, or (for `dirOnly`) one that is
      not a directory, fails without change, as does a path the user does
      not own. */
  method FixPermissions(fs: FileSystem, path: string, mode: nat, dirOnly: bool,
                        strategy: FixStrategy, okMessage: string, missingMessage: string, errorPrefix: string)
    returns (r: FixResult)
    modifies fs
    ensures r.strategy == strategy
    ensures var t := old(fs.entries);
      if path !in t || (dirOnly && !t[path].isDir) then
        !r.success && r.message == missingMessage + path && fs.entries == t && r.rollback == NoRollback
      else if !t[path].owned then
        !r.success && r.message == errorPrefix + ChmodError(path) && fs.entries == t && r.rollback == NoRollback
      else
        r.success && r.message == okMessage + path && fs.entries == Chmod(t, path, mode) &&
        r.changesMade == ["chmod " + Oct(mode) + " " + path] &&
        r.rollback == RestoreMode(path, StMode(t[path]))
  {
    if path in fs.entries && (!dirOnly || fs.entries[path].isDir) {
      var oldMode := StMode(fs.entries[path]);
      if !fs.entries[path].owned {
        return FixResult(false, strategy, errorPrefix + ChmodError(path), [], NoRollback);
      }
      fs.entries := Chmod(fs.entries, path, mode);
      return FixResult(true, strategy, okMessage + path, ["chmod " + Oct(mode) + " " + path], RestoreMode(path, oldMode));
    }
    return FixResult(false, strategy, missingMessage + path, [], NoRollback);
  }

  method FixFilePermissions(fs: FileSystem, path: string, mode: nat) returns (r: FixResult)
    modifies fs
    ensures var t := old(fs.entries);
      if path !in t then
        !r.success && r.message == "File not found: " + path && fs.entries == t
      else if !t[path].owned then
        !r.success && r.message == "Error fixing permissions: " + ChmodError(path) && fs.entries == t
      else
        r.success && fs.entries == Chmod(t, path, mode) && r.rollback == RestoreMode(path, StMode(t[path])) &&
        r.message == "Changed permissions on " + path && r.changesMade == ["chmod " + Oct(mode) + " " + path]
  {
    r := FixPermissions(fs, path, mode, false, PermissionStrategy("fix_file_permissions", "Fix permissions on " + path),
      "Changed permissions on ", "File not found: ", "Error fixing permissions: ");
  }

  method FixDirectoryPermissions(fs: FileSystem, path: string, mode: nat) returns (r: FixResult)
    modifies fs
    ensures var t := old(fs.entries);
      if path !in t || !t[path].isDir then
        !r.success && r.message == "Directory not found: " + path && fs.entries == t
      else if !t[path].owned then
        !r.success && r.message == "Error fixing directory permissions: " + ChmodError(path) && fs.entries == t
      else
        r.success && fs.entries == Chmod(t, path, mode) && r.rollback == RestoreMode(path, StMode(t[path])) &&
        r.message == "Changed permissions on directory " + path && r.changesMade == ["chmod " + Oct(mode) + " " + path]
  {
    r := FixPermissions(fs, path, mode, true, PermissionStrategy("fix_directory_permissions", "Fix permissions on directory " + path),
      "Changed permissions on directory ", "Directory not found: ", "Error fixing directory permissions: ");
  }

  /** Undoing a fix from what it recorded. */
  function ApplyRollback(t: Tree, rb: Rollback): Tree
  {
    match rb
    case NoRollback => t
    case RestoreMode(path, oldMode) => if path in t then Chmod(t, path, oldMode) else t
    case RemoveCreated(p) => t - {p}
  }

  /** The recorded `old_mode` restores the tree a chmod changed. */
  lemma ModeRollbackRestores(t: Tree, path: string, mode: nat)
    requires path in t && ValidNode(t[path])
    ensures ApplyRollback(Chmod(t, path, mode), RestoreMode(path, StMode(t[path]))) == t
  {
    var after := ApplyRollback(Chmod(t, path, mode), RestoreMode(path, StMode(t[path])));
    assert after[path] == t[path];
  }

  // ---------------------------------------------------------------------
  // `.env` creation.

  /** The fallback templates, tried in order when `.env.example` is absent. */
  const OtherEnvTemplates := [".env.sample", ".env.template", "env.example"]

  const EnvStrategy := FixStrategy("create_env_file", "Create .env file from .env.example", ConfigurationFix,
    [Configuration, FileNotFound], 90, None, false, true)

  /** The first of `templates` under `dir` that exists and copies to `.env`
      in `dir`; a copy that raises moves on to the next. */
  function FirstCopyableTemplate(t: Tree, dir: string, templates: seq<string>): (r: Option<string>)
    ensures r.Some? ==> r.value in templates && CopySucceeds(t, Child(dir, r.value), dir)
  {
    if templates == [] then None
    else if CopySucceeds(t, Child(dir, templates[0]), dir) then Some(templates[0])
    else FirstCopyableTemplate(t, dir, templates[1..])
  }

  lemma {:induction false} FirstCopyableTemplateSpec(t: Tree, dir: string, templates: seq<string>)
    ensures FirstCopyableTemplate(t, dir, templates).None? <==>
      forall k :: 0 <= k < |templates| ==> !CopySucceeds(t, Child(dir, templates[k]), dir)
    ensures FirstCopyableTemplate(t, dir, templates).Some? ==>
      exists k :: 0 <= k < |templates| && templates[k] == FirstCopyableTemplate(t, dir, templates).value &&
        forall j :: 0 <= j < k ==> !CopySucceeds(t, Child(dir, templates[j]), dir)
  {
    if templates != [] && !CopySucceeds(t, Child(dir, templates[0]), dir) {
      FirstCopyableTemplateSpec(t, dir, templates[1..]);
      forall k | 0 < k < |templates|
        ensures templates[k] == templates[1..][k - 1]
      {
      }
      if FirstCopyableTemplate(t, dir, templates).Some? {
        var k :| 0 <= k < |templates[1..]| && templates[1..][k] == FirstCopyableTemplate(t, dir, templates).value &&
          forall j :: 0 <= j < k ==> !CopySucceeds(t, Child(dir, templates[1..][j]), dir);
        assert templates[k + 1] == templates[1..][k];
      }
    } else if templates != [] {
      assert templates[0] == FirstCopyableTemplate(t, dir, templates).value;
    }
  }

  /** When no entry can be created in `dir` (it is missing, not a directory
      or not writable), every fallback copy raises and none is chosen. */
  lemma {:induction false} UnwritableDirCopiesNothing(t: Tree, dir: string, templates: seq<string>)
    requires !CanCreateIn(t, dir)
    ensures FirstCopyableTemplate(t, dir, templates).None?
    decreases |templates|
  {
    if templates != [] {
      UnwritableDirCopiesNothing(t, dir, templates[1..]);
    }
  }

  /** Creates `<dir>/.env` from the first usable template:
      `.env.example` if it exists (a failing copy is an error), otherwise the
      first fallback that exists and copies. */
  method CreateEnvFromExample(fs: FileSystem, dir: string) returns (r: FixResult)
    modifies fs
    ensures r.strategy == EnvStrategy
    ensures var t := old(fs.entries);
      var env := Child(dir, ".env");
      var example := Child(dir, ".env.example");
      if env in t then
        !r.success && r.message == ".env file already exists" && fs.entries == t
      else if example in t then
        if CopySucceeds(t, example, dir) then
          r.success && fs.entries == CopyFile(t, example, env) && r.rollback == RemoveCreated(env) &&
          r.message == "Created .env from .env.example" && r.changesMade == ["Copied .env.example to .env"]
        else
          !r.success && r.message == "Error copying file: " + CopyError(t, example, dir, env) && fs.entries == t
      else
        match FirstCopyableTemplate(t, dir, OtherEnvTemplates)
        case None =>
          !r.success && r.message == "No .env template file found" && fs.entries == t
        case Some(template) =>
          r.success && fs.entries == CopyFile(t, Child(dir, template), env) && r.rollback == RemoveCreated(env) &&
          r.message == "Created .env from " + template && r.changesMade == ["Copied " + template + " to .env"]
  {
    var env := Child(dir, ".env");
    var example := Child(dir, ".env.example");
    if env in fs.entries {
      return FixResult(false, EnvStrategy, ".env file already exists", [], NoRollback);
    }
    if example in fs.entries {
      if CopySucceeds(fs.entries, example, dir) {
        fs.entries := CopyFile(fs.entries, example, env);
        return FixResult(true, EnvStrategy, "Created .env from .env.example", ["Copied .env.example to .env"], RemoveCreated(env));
      }
      return FixResult(false, EnvStrategy, "Error copying file: " + CopyError(fs.entries, example, dir, env), [], NoRollback);
    }
    var i := 0;
    while i < |OtherEnvTemplates|
      invariant 0 <= i <= |OtherEnvTemplates|
      invariant fs.entries == old(fs.entries)
      invariant FirstCopyableTemplate(fs.entries, dir, OtherEnvTemplates)
             == FirstCopyableTemplate(fs.entries, dir, OtherEnvTemplates[i..])
    {
      var template := OtherEnvTemplates[i];
      var file := Child(dir, template);
      assert OtherEnvTemplates[i..][0] == template && OtherEnvTemplates[i..][1..] == OtherEnvTemplates[i + 1..];
      if CopySucceeds(fs.entries, file, dir) {
        fs.entries := CopyFile(fs.entries, file, env);
        return FixResult(true, EnvStrategy, "Created .env from " + template, ["Copied " + template + " to .env"], RemoveCreated(env));
      }
      i := i + 1;
    }
    return FixResult(false, EnvStrategy, "No .env template file found", [], NoRollback);
  }

  /** Removing the recorded `created_file` restores the tree. */
  lemma CreatedFileRollbackRestores(t: Tree, src: string, env: string)
    requires src in t && env !in t
    ensures ApplyRollback(CopyFile(t, src, env), RemoveCreated(env)) == t
  {
    assert ApplyRollback(CopyFile(t, src, env), RemoveCreated(env)).Keys == t.Keys;
  }

  // ---------------------------------------------------------------------
  // Syntax fixes.

  /** One of `)`, `]`, `}`, `:`, `;` occurs in `m`. */
  predicate MentionsBracket(m: string)
  {
    ')' in m || ']' in m || '}' in m || ':' in m || ';' in m
  }

  /** The kind of syntax fix a message calls for, from its lower-cased text. */
  function DetectFixType(error: DetectedError): (r: Option<string>)
    ensures var m := Lower(error.message);
      r.None? <==> !Contains(m, "indent") && !Contains(m, "unexpected token") &&
                   !Contains(m, "unterminated") && !(Contains(m, "missing") && MentionsBracket(m))
    ensures r.Some? ==> r.value in ["indentation", "unexpected_token", "unterminated", "missing_bracket"]
  {
    var m := Lower(error.message);
    IndentationMentionsIndent(m);
    if Contains(m, "indentation") || Contains(m, "indent") then Some("indentation")
    else if Contains(m, "unexpected token") then Some("unexpected_token")
    else if Contains(m, "unterminated") then Some("unterminated")
    else if Contains(m, "missing") && MentionsBracket(m) then Some("missing_bracket")
    else None
  }

  /** "indentation" contains "indent", so the first test is just "indent". */
  lemma {:induction false} IndentationMentionsIndent(s: string)
    ensures Contains(s, "indentation") ==> Contains(s, "indent")
    decreases |s|
  {
    if "indentation" <= s {
      assert s[..6] == "indent";
    } else if |s| > 0 {
      IndentationMentionsIndent(s[1..]);
    }
  }

  // ---------------------------------------------------------------------
  // The fixer collection.

  datatype Fixer = DependencyFixer | PortFixer | PermissionFixer | ConfigurationFixer | SyntaxFixer

  function GetFixerForError(error: DetectedError): Option<Fixer>
  {
    match error.category
    case Dependency => Some(DependencyFixer)
    case Import => Some(DependencyFixer)
    case PortInUse => Some(PortFixer)
    case Permission => Some(PermissionFixer)
    case Configuration => Some(ConfigurationFixer)
    case Syntax => Some(SyntaxFixer)
    case _ => None
  }

  predicate CanAutoFix(error: DetectedError)
  {
    error.category in {Dependency, Import, PortInUse, Permission}
  }

  predicate RequiresAiFix(error: DetectedError)
  {
    error.category in {Syntax, Runtime, Type, TestFailure}
  }

  /** No error is both auto-fixable and in need of AI help; every
      auto-fixable error has a fixer other than the syntax fixer, and the
      only AI-bound category with a fixer is SYNTAX. */
  lemma FixerCoverage(error: DetectedError)
    ensures !(CanAutoFix(error) && RequiresAiFix(error))
    ensures CanAutoFix(error) ==> GetFixerForError(error).Some? && GetFixerForError(error) != Some(SyntaxFixer)
    ensures RequiresAiFix(error) && GetFixerForError(error).Some? ==> error.category == Syntax
    ensures GetFixerForError(error).Some? <==>
      error.category in {Dependency, Import, PortInUse, Permission, Configuration, Syntax}
  {
  }

  /** The collection's registry starts with the built-in strategies. */
  class FixerCollection {
    const registry: FixStrategyRegistry

    constructor()
      ensures fresh(registry) && registry.strategies == DefaultStrategies
    {
      registry := new FixStrategyRegistry();
    }
  }
}
