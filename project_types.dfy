/** Project type detection (ai_orchestrator/execution/project_types.py).

    Seven stateless handlers each decide from the files of a project whether
    it is theirs (`detect`) and how to install, run, test and build it
    (`get_config`). The handlers are tried in order of decreasing priority
    and the first that recognises the project wins; the generic handler
    recognises everything, so detection always succeeds. */
module ProjectTypes {
  import opened Text
  import opened Files

  datatype ProjectConfig = ProjectConfig(
    projectType: string,
    rootPath: string,
    installCommand: Option<string>,
    runCommand: Option<string>,
    testCommand: Option<string>,
    buildCommand: Option<string>,
    devCommand: Option<string>,
    entryPoint: Option<string>,
    dependenciesFile: Option<string>,
    configFiles: seq<string>,
    environment: map<string, string>,
    ports: seq<int>,
    errorPatterns: seq<string>)

  datatype Handler = NextJs | React | Django | Flask | NodeJs | Python | Generic

  function Name(h: Handler): string
  {
    match h
    case NextJs => "nextjs"
    case React => "react"
    case Django => "django"
    case Flask => "flask"
    case NodeJs => "nodejs"
    case Python => "python"
    case Generic => "generic"
  }

  function Priority(h: Handler): nat
  {
    match h
    case NextJs => 25
    case React => 20
    case Django => 15
    case Flask => 15
    case NodeJs => 10
    case Python => 5
    case Generic => 0
  }

  // ---------------------------------------------------------------------
  // The handler registry.

  /** The handlers as listed, before sorting. */
  const ListedHandlers := [NextJs, React, Django, Flask, NodeJs, Python, Generic]

  /** Puts `h` in front of every handler of no higher priority. */
  function InsertByPriority(h: Handler, hs: seq<Handler>): seq<Handler>
  {
    if hs == [] || Priority(hs[0]) <= Priority(h) then [h] + hs
    else [hs[0]] + InsertByPriority(h, hs[1..])
  }

  /** `sorted(hs, key=priority, reverse=True)`, which is stable. */
  function SortByPriority(hs: seq<Handler>): seq<Handler>
  {
    if hs == [] then [] else InsertByPriority(hs[0], SortByPriority(hs[1..]))
  }

  const ProjectHandlers := SortByPriority(ListedHandlers)

  /** The listing is already in priority order, Django (listed first) ahead
      of Flask at the tie, and the generic handler comes last. */
  lemma ProjectHandlersOrder()
    ensures ProjectHandlers == [NextJs, React, Django, Flask, NodeJs, Python, Generic]
    ensures forall i, j :: 0 <= i < j < |ProjectHandlers| ==> Priority(ProjectHandlers[i]) >= Priority(ProjectHandlers[j])
  {
    var hs := ListedHandlers;
    assert forall i, j :: 0 <= i < j < |hs| ==> Priority(hs[i]) >= Priority(hs[j]);
    SortInOrder(hs);
  }

  /** Sorting a listing that is already in priority order leaves it as it is. */
  lemma {:induction false} SortInOrder(hs: seq<Handler>)
    requires forall i :: 0 <= i < |hs| - 1 ==> Priority(hs[i]) >= Priority(hs[i + 1])
    ensures SortByPriority(hs) == hs
  {
    if hs != [] {
      SortInOrder(hs[1..]);
      assert [hs[0]] + hs[1..] == hs;
    }
  }

  // ---------------------------------------------------------------------
  // Detection.

  function PackageJsonPath(dir: string): string { Child(dir, "package.json") }

  /** `name in dependencies` of a readable, parseable `package.json`. */
  predicate DependsOn(t: Tree, dir: string, parse: JsonParser, name: string, includeDev: bool)
  {
    PackageJsonPath(dir) in t &&
    match ReadJson(t, PackageJsonPath(dir), parse)
    case Loaded(Some(pkg)) => name in pkg.dependencies || (includeDev && name in pkg.devDependencies)
    case _ => false
  }

  /** Opening `package.json` raises an error `_read_json` does not catch. */
  predicate PackageJsonRaises(t: Tree, dir: string)
  {
    OpenRaises(t, PackageJsonPath(dir))
  }

  /** The handlers that read `package.json` through `_read_json`. */
  predicate ReadsPackageJson(h: Handler)
  {
    h == NextJs || h == React || h == NodeJs
  }

  /** A handler's `detect` raises: Next.js and React read `package.json`
      once it exists (Node.js only checks that it exists). */
  predicate DetectRaises(h: Handler, t: Tree, dir: string)
  {
    (h == NextJs || h == React) && PackageJsonRaises(t, dir)
  }

  /** A file is read and its text (lower-cased when `lower`) contains `word`;
      a file that cannot be read does not count. */
  predicate Mentions(t: Tree, path: string, word: string, lower: bool)
  {
    match ReadText(t, path)
    case None => false
    case Some(text) => Contains(if lower then Lower(text) else text, word)
  }

  const PythonIndicators := ["requirements.txt", "setup.py", "setup.cfg", "pyproject.toml", "Pipfile", "main.py", "app.py"]
  const FlaskEntries := ["app.py", "application.py", "wsgi.py"]

  predicate AnyExists(t: Tree, dir: string, names: seq<string>)
  {
    exists k :: 0 <= k < |names| && Child(dir, names[k]) in t
  }

  /** An entry file that imports flask. */
  predicate ImportsFlask(t: Tree, path: string)
  {
    path in t && (Mentions(t, path, "from flask import", false) || Mentions(t, path, "import flask", true))
  }

  /** Each handler's `detect`. */
  predicate Detect(h: Handler, t: Tree, dir: string, parse: JsonParser)
  {
    match h
    case NextJs => DependsOn(t, dir, parse, "next", false)
    case React => DependsOn(t, dir, parse, "react", true) && !DependsOn(t, dir, parse, "next", true)
    case Django =>
      (Child(dir, "manage.py") in t && Mentions(t, Child(dir, "manage.py"), "django", true)) ||
      (Child(dir, "requirements.txt") in t && Mentions(t, Child(dir, "requirements.txt"), "django", true))
    case Flask =>
      (Child(dir, "requirements.txt") in t && Mentions(t, Child(dir, "requirements.txt"), "flask", true)) ||
      exists k :: 0 <= k < |FlaskEntries| && ImportsFlask(t, Child(dir, FlaskEntries[k]))
    case NodeJs => PackageJsonPath(dir) in t
    case Python => AnyExists(t, dir, PythonIndicators)
    case Generic => true
  }

  /** What trying the handlers in order gives: the first that recognises
      the project, none, or an exception out of a `detect`. */
  datatype Detection = Detected(handler: Handler) | Undetected | DetectionRaised

  /** The handlers of `hs` tried in order until one recognises the project
      or raises. */
  function FirstDetected(hs: seq<Handler>, t: Tree, dir: string, parse: JsonParser): Detection
  {
    if hs == [] then Undetected
    else if DetectRaises(hs[0], t, dir) then DetectionRaised
    else if Detect(hs[0], t, dir, parse) then Detected(hs[0])
    else FirstDetected(hs[1..], t, dir, parse)
  }

  /** `detect_project_type`, with the generic handler as the fallback;
      `None` where it raises. */
  function DetectProjectType(t: Tree, dir: string, parse: JsonParser): Option<Handler>
  {
    match FirstDetected(ProjectHandlers, t, dir, parse)
    case Detected(h) => Some(h)
    case Undetected => Some(Generic)
    case DetectionRaised => None
  }

  /** A handler is reached only when every earlier one neither raised nor
      recognised the project. */
  predicate Passed(hs: seq<Handler>, k: int, t: Tree, dir: string, parse: JsonParser)
    requires 0 <= k <= |hs|
  {
    forall j :: 0 <= j < k ==> !DetectRaises(hs[j], t, dir) && !Detect(hs[j], t, dir, parse)
  }

  lemma {:induction false} FirstDetectedSpec(hs: seq<Handler>, t: Tree, dir: string, parse: JsonParser)
    ensures Generic in hs ==> !FirstDetected(hs, t, dir, parse).Undetected?
    ensures FirstDetected(hs, t, dir, parse).Detected? ==>
      exists k :: 0 <= k < |hs| && hs[k] == FirstDetected(hs, t, dir, parse).handler &&
        Detect(hs[k], t, dir, parse) && Passed(hs, k, t, dir, parse)
    ensures FirstDetected(hs, t, dir, parse).DetectionRaised? ==>
      exists k :: 0 <= k < |hs| && DetectRaises(hs[k], t, dir) && Passed(hs, k, t, dir, parse)
  {
    if hs != [] && !DetectRaises(hs[0], t, dir) && !Detect(hs[0], t, dir, parse) {
      var r := FirstDetected(hs, t, dir, parse);
      FirstDetectedSpec(hs[1..], t, dir, parse);
      assert Generic in hs ==> Generic in hs[1..];
      if r.Detected? || r.DetectionRaised? {
        var k :| 0 <= k < |hs[1..]| && Passed(hs[1..], k, t, dir, parse) &&
          ((r.Detected? && hs[1..][k] == r.handler && Detect(hs[1..][k], t, dir, parse)) ||
           (r.DetectionRaised? && DetectRaises(hs[1..][k], t, dir)));
        assert hs[k + 1] == hs[1..][k];
        forall j | 0 <= j < k + 1
          ensures !DetectRaises(hs[j], t, dir) && !Detect(hs[j], t, dir, parse)
        {
          if j > 0 { assert hs[j] == hs[1..][j - 1]; }
        }
      }
    } else if hs != [] {
      assert Passed(hs, 0, t, dir, parse);
    }
  }

  /** Detection raises exactly when `package.json` exists but cannot be
      opened, since Next.js is tried first; otherwise it picks the first
      handler, in priority order, that recognises the project, the generic
      handler catching the rest. */
  lemma DetectProjectTypeFirstMatch(t: Tree, dir: string, parse: JsonParser)
    ensures DetectProjectType(t, dir, parse).None? <==> PackageJsonRaises(t, dir)
    ensures !FirstDetected(ProjectHandlers, t, dir, parse).Undetected?
    ensures DetectProjectType(t, dir, parse).Some? ==>
      var h := DetectProjectType(t, dir, parse).value;
      Detect(h, t, dir, parse) &&
      exists k :: 0 <= k < |ProjectHandlers| && ProjectHandlers[k] == h && Passed(ProjectHandlers, k, t, dir, parse)
  {
    ProjectHandlersOrder();
    assert ProjectHandlers[0] == NextJs && ProjectHandlers[6] == Generic;
    FirstDetectedSpec(ProjectHandlers, t, dir, parse);
  }

  /** Next.js and React raise together, exactly when `package.json` exists
      but cannot be opened. React needs react among all dependencies and no
      next; Next.js looks only at `dependencies`. A missing or malformed
      `package.json` matches neither. The two never both match. */
  lemma JsDetection(t: Tree, dir: string, parse: JsonParser)
    ensures DetectRaises(NextJs, t, dir) == DetectRaises(React, t, dir) == (ReadJson(t, PackageJsonPath(dir), parse) == ReadRaised)
    ensures ReadJson(t, PackageJsonPath(dir), parse) == Loaded(None) ==>
      !Detect(React, t, dir, parse) && !Detect(NextJs, t, dir, parse)
    ensures forall pkg :: ReadJson(t, PackageJsonPath(dir), parse) == Loaded(Some(pkg)) ==>
      (Detect(React, t, dir, parse) <==> "react" in pkg.dependencies + pkg.devDependencies &&
                                         "next" !in pkg.dependencies + pkg.devDependencies) &&
      (Detect(NextJs, t, dir, parse) <==> "next" in pkg.dependencies)
    ensures !(Detect(React, t, dir, parse) && Detect(NextJs, t, dir, parse))
  {
  }

  // ---------------------------------------------------------------------
  // Configuration.

  /** The first of `names` that exists under `dir`. */
  function FirstExisting(t: Tree, dir: string, names: seq<string>): (r: Option<string>)
    ensures r.Some? ==> r.value in names && Child(dir, r.value) in t
  {
    if names == [] then None
    else if Child(dir, names[0]) in t then Some(names[0])
    else FirstExisting(t, dir, names[1..])
  }

  lemma {:induction false} FirstExistingSpec(t: Tree, dir: string, names: seq<string>)
    ensures FirstExisting(t, dir, names).None? <==> forall k :: 0 <= k < |names| ==> Child(dir, names[k]) !in t
    ensures FirstExisting(t, dir, names).Some? ==>
      exists k :: 0 <= k < |names| && names[k] == FirstExisting(t, dir, names).value &&
        forall j :: 0 <= j < k ==> Child(dir, names[j]) !in t
  {
    if names != [] && Child(dir, names[0]) !in t {
      FirstExistingSpec(t, dir, names[1..]);
      forall k | 0 < k < |names|
        ensures names[k] == names[1..][k - 1]
      {
      }
      if FirstExisting(t, dir, names).Some? {
        var k :| 0 <= k < |names[1..]| && names[1..][k] == FirstExisting(t, dir, names).value &&
          forall j :: 0 <= j < k ==> Child(dir, names[1..][j]) !in t;
        assert names[k + 1] == names[1..][k];
      }
    } else if names != [] {
      assert names[0] == FirstExisting(t, dir, names).value;
    }
  }

  function If(b: bool, s: string): Option<string>
  {
    if b then Some(s) else None
  }

  /** `_read_json(...) or {}`, where `_read_json` returns. */
  function PackageOrEmpty(t: Tree, dir: string, parse: JsonParser): PackageJson
  {
    match ReadJson(t, PackageJsonPath(dir), parse)
    case Loaded(Some(pkg)) => pkg
    case _ => PackageJson({}, {}, {}, None)
  }

  /** Node.js: "npm start", else "node <main>", else the dev script. */
  function NodeJsRunCommand(pkg: PackageJson): Option<string>
  {
    var run := if "start" in pkg.scripts then Some("npm start")
               else if pkg.main.Some? then Some("node " + pkg.main.value)
               else None;
    if run.Some? then run else If("dev" in pkg.scripts, "npm run dev")
  }

  const NodeJsErrorPatterns := [
    "Error: Cannot find module", "SyntaxError:", "TypeError:", "ReferenceError:", "ENOENT:", "EADDRINUSE:",
    "UnhandledPromiseRejection", "npm ERR!", "node:internal", "at Object\\.<anonymous>"]
  const ReactErrorPatterns := [
    "Error: Cannot find module", "SyntaxError:", "TypeError:", "Module not found:", "Failed to compile",
    "Invalid hook call", "React\\.createElement:", "Warning: Each child in a list", "Uncaught Error:"]
  const NextJsErrorPatterns := [
    "Error: Cannot find module", "SyntaxError:", "TypeError:", "Module not found:", "Failed to compile",
    "Server Error", "Error occurred prerendering", "getServerSideProps", "getStaticProps", "Unhandled Runtime Error"]
  const PythonErrorPatterns := [
    "Traceback \\(most recent call last\\)", "SyntaxError:", "IndentationError:", "TypeError:", "ValueError:",
    "KeyError:", "ImportError:", "ModuleNotFoundError:", "AttributeError:", "NameError:", "FileNotFoundError:",
    "RuntimeError:", "AssertionError:"]
  const FlaskErrorPatterns := [
    "Traceback \\(most recent call last\\)", "werkzeug\\.exceptions", "jinja2\\.exceptions", "BuildError:",
    "TemplateNotFound:", "RuntimeError:", "Address already in use", "ModuleNotFoundError:", "ImportError:",
    "flask\\.cli\\.NoAppException"]
  const DjangoErrorPatterns := [
    "Traceback \\(most recent call last\\)", "django\\.core\\.exceptions", "ImproperlyConfigured:",
    "TemplateDoesNotExist:", "TemplateSyntaxError:", "OperationalError:", "IntegrityError:",
    "ModuleNotFoundError:", "ImportError:", "django\\.db\\.utils"]
  const GenericErrorPatterns := ["Error:", "Exception:", "Traceback", "FATAL:", "CRITICAL:", "ERROR:", "failed", "error:"]

  function ErrorPatterns(h: Handler): seq<string>
  {
    match h
    case NextJs => NextJsErrorPatterns
    case React => ReactErrorPatterns
    case Django => DjangoErrorPatterns
    case Flask => FlaskErrorPatterns
    case NodeJs => NodeJsErrorPatterns
    case Python => PythonErrorPatterns
    case Generic => GenericErrorPatterns
  }

  function NodeJsConfig(t: Tree, dir: string, parse: JsonParser): ProjectConfig
  {
    var pkg := PackageOrEmpty(t, dir, parse);
    ProjectConfig("nodejs", dir, Some("npm install"), NodeJsRunCommand(pkg),
      If("test" in pkg.scripts, "npm test"), If("build" in pkg.scripts, "npm run build"),
      If("dev" in pkg.scripts, "npm run dev"),
      Some(if pkg.main.Some? then pkg.main.value else "index.js"),
      Some("package.json"), ["package.json", "package-lock.json", "tsconfig.json"], map[], [3000],
      NodeJsErrorPatterns)
  }

  function ReactConfig(t: Tree, dir: string, parse: JsonParser): ProjectConfig
  {
    var scripts := PackageOrEmpty(t, dir, parse).scripts;
    ProjectConfig("react", dir, Some("npm install"), If("start" in scripts, "npm start"),
      If("test" in scripts, "npm test"), If("build" in scripts, "npm run build"),
      Some(if "dev" in scripts then "npm run dev" else "npm start"),
      Some("src/index.js"), Some("package.json"),
      ["package.json", "tsconfig.json", "vite.config.js", "webpack.config.js"], map["BROWSER" := "none"], [3000],
      ReactErrorPatterns)
  }

  function NextJsConfig(t: Tree, dir: string, parse: JsonParser): ProjectConfig
  {
    var scripts := PackageOrEmpty(t, dir, parse).scripts;
    ProjectConfig("nextjs", dir, Some("npm install"), If("start" in scripts, "npm start"),
      If("test" in scripts, "npm test"),
      Some(if "build" in scripts then "npm run build" else "next build"),
      Some(if "dev" in scripts then "npm run dev" else "next dev"),
      Some("pages/index.js"), Some("package.json"),
      ["package.json", "next.config.js", "next.config.mjs", "tsconfig.json"], map[], [3000],
      NextJsErrorPatterns)
  }

  const PythonEntries := ["main.py", "app.py", "run.py", "__main__.py"]

  /** `_has_tests`: a `tests` or `test` directory, or a `test_*.py` file. */
  predicate HasTests(t: Tree, dir: string)
  {
    (Child(dir, "tests") in t && t[Child(dir, "tests")].isDir) ||
    (Child(dir, "test") in t && t[Child(dir, "test")].isDir) ||
    HasTestFile(t, dir)
  }

  /** The install command and dependency file: requirements.txt, then
      pyproject.toml, then Pipfile. */
  function PythonInstall(t: Tree, dir: string): (Option<string>, Option<string>)
  {
    if Child(dir, "requirements.txt") in t then (Some("pip install -r requirements.txt"), Some("requirements.txt"))
    else if Child(dir, "pyproject.toml") in t then (Some("pip install -e ."), Some("pyproject.toml"))
    else if Child(dir, "Pipfile") in t then (Some("pipenv install"), Some("Pipfile"))
    else (None, None)
  }

  function PythonConfig(t: Tree, dir: string): ProjectConfig
  {
    var entry := FirstExisting(t, dir, PythonEntries);
    var install := PythonInstall(t, dir);
    ProjectConfig("python", dir, install.0,
      if entry.Some? then Some("python " + entry.value) else None,
      If(Child(dir, "pytest.ini") in t || HasTests(t, dir), "pytest"),
      None, None, entry, install.1,
      ["pyproject.toml", "setup.py", "setup.cfg", "pytest.ini", "tox.ini"], map[], [],
      PythonErrorPatterns)
  }

  const FlaskCandidates := ["app.py", "application.py", "wsgi.py", "main.py"]

  function FlaskConfig(t: Tree, dir: string): ProjectConfig
  {
    var found := FirstExisting(t, dir, FlaskCandidates);
    var entry := if found.Some? then found.value else "app.py";
    ProjectConfig("flask", dir, If(Child(dir, "requirements.txt") in t, "pip install -r requirements.txt"),
      Some("flask run"), Some("pytest"), None, Some("flask run --debug"), Some(entry),
      Some("requirements.txt"), ["config.py", ".flaskenv", ".env"], map["FLASK_APP" := entry], [5000],
      FlaskErrorPatterns)
  }

  function DjangoConfig(t: Tree, dir: string): ProjectConfig
  {
    ProjectConfig("django", dir, If(Child(dir, "requirements.txt") in t, "pip install -r requirements.txt"),
      Some("python manage.py runserver"), Some("python manage.py test"), None, None, Some("manage.py"),
      Some("requirements.txt"), ["manage.py", "settings.py", ".env"], map[], [8000],
      DjangoErrorPatterns)
  }

  const GenericEntries := ["main.py", "main.js", "index.js", "app.py", "app.js", "run.sh"]

  /** The interpreter an entry point's extension calls for. */
  function RunByExtension(entry: string): Option<string>
  {
    if EndsWith(entry, ".py") then Some("python " + entry)
    else if EndsWith(entry, ".js") then Some("node " + entry)
    else if EndsWith(entry, ".sh") then Some("bash " + entry)
    else None
  }

  function GenericConfig(t: Tree, dir: string): ProjectConfig
  {
    var entry := FirstExisting(t, dir, GenericEntries);
    ProjectConfig("generic", dir, None, if entry.Some? then RunByExtension(entry.value) else None,
      None, None, None, entry, None, [], map[], [], GenericErrorPatterns)
  }

  /** Each handler's `get_config`; `None` where it raises, which the
      handlers reading `package.json` do when it cannot be opened. */
  function GetConfig(h: Handler, t: Tree, dir: string, parse: JsonParser): (c: Option<ProjectConfig>)
    ensures c.None? <==> ReadsPackageJson(h) && PackageJsonRaises(t, dir)
    ensures c.Some? ==> c.value.projectType == Name(h) && c.value.rootPath == dir && c.value.errorPatterns == ErrorPatterns(h)
  {
    if ReadsPackageJson(h) && PackageJsonRaises(t, dir) then None
    else Some(ConfigOf(h, t, dir, parse))
  }

  function ConfigOf(h: Handler, t: Tree, dir: string, parse: JsonParser): (c: ProjectConfig)
    ensures c.projectType == Name(h) && c.rootPath == dir && c.errorPatterns == ErrorPatterns(h)
  {
    match h
    case NextJs => NextJsConfig(t, dir, parse)
    case React => ReactConfig(t, dir, parse)
    case Django => DjangoConfig(t, dir)
    case Flask => FlaskConfig(t, dir)
    case NodeJs => NodeJsConfig(t, dir, parse)
    case Python => PythonConfig(t, dir)
    case Generic => GenericConfig(t, dir)
  }

  // ---------------------------------------------------------------------
  // Properties of the configurations.

  /** Node.js raises where `package.json` cannot be opened; otherwise it
      runs "npm start" if there is a start script, else "node <main>", else
      "npm run dev"; a missing or malformed `package.json` counts as `{}`,
      leaving no run command and `index.js` as the entry point. */
  lemma NodeJsRunPrecedence(t: Tree, dir: string, parse: JsonParser)
    ensures GetConfig(NodeJs, t, dir, parse).None? <==> ReadJson(t, PackageJsonPath(dir), parse) == ReadRaised
    ensures GetConfig(NodeJs, t, dir, parse).Some? ==>
      var pkg := PackageOrEmpty(t, dir, parse);
      var run := GetConfig(NodeJs, t, dir, parse).value.runCommand;
      ("start" in pkg.scripts ==> run == Some("npm start")) &&
      ("start" !in pkg.scripts && pkg.main.Some? ==> run == Some("node " + pkg.main.value)) &&
      ("start" !in pkg.scripts && pkg.main.None? && "dev" in pkg.scripts ==> run == Some("npm run dev")) &&
      ("start" !in pkg.scripts && pkg.main.None? && "dev" !in pkg.scripts ==> run.None?)
    ensures ReadJson(t, PackageJsonPath(dir), parse) == Loaded(None) ==>
      GetConfig(NodeJs, t, dir, parse).Some? &&
      GetConfig(NodeJs, t, dir, parse).value.runCommand.None? &&
      GetConfig(NodeJs, t, dir, parse).value.entryPoint == Some("index.js")
  {
  }

  /** Python: the entry point is the first existing of main.py, app.py,
      run.py, __main__.py; there is a run command exactly when there is an
      entry point; installing prefers requirements.txt, then
      pyproject.toml, then Pipfile. */
  lemma PythonConfigRules(t: Tree, dir: string, parse: JsonParser)
    ensures var c := GetConfig(Python, t, dir, parse).value;
      (c.entryPoint.None? <==> forall k :: 0 <= k < |PythonEntries| ==> Child(dir, PythonEntries[k]) !in t) &&
      (c.entryPoint.Some? ==>
         Child(dir, c.entryPoint.value) in t &&
         exists k ::
           0 <= k < |PythonEntries| && PythonEntries[k] == c.entryPoint.value &&
           forall j :: 0 <= j < k ==> Child(dir, PythonEntries[j]) !in t) &&
      (c.runCommand.Some? <==> c.entryPoint.Some?) &&
      (c.runCommand.Some? ==> c.runCommand.value == "python " + c.entryPoint.value)
    ensures var c := GetConfig(Python, t, dir, parse).value;
      (Child(dir, "requirements.txt") in t ==>
         c.dependenciesFile == Some("requirements.txt") && c.installCommand == Some("pip install -r requirements.txt")) &&
      (Child(dir, "requirements.txt") !in t && Child(dir, "pyproject.toml") in t ==>
         c.dependenciesFile == Some("pyproject.toml") && c.installCommand == Some("pip install -e .")) &&
      (Child(dir, "requirements.txt") !in t && Child(dir, "pyproject.toml") !in t && Child(dir, "Pipfile") in t ==>
         c.dependenciesFile == Some("Pipfile") && c.installCommand == Some("pipenv install")) &&
      (Child(dir, "requirements.txt") !in t && Child(dir, "pyproject.toml") !in t && Child(dir, "Pipfile") !in t ==>
         c.installCommand.None? && c.dependenciesFile.None?)
  {
    FirstExistingSpec(t, dir, PythonEntries);
  }

  /** Flask: `FLASK_APP` is the only variable and names the entry point,
      which defaults to app.py. */
  lemma FlaskEnvironment(t: Tree, dir: string, parse: JsonParser)
    ensures var c := GetConfig(Flask, t, dir, parse).value;
      c.entryPoint.Some? && c.environment == map["FLASK_APP" := c.entryPoint.value] &&
      ((forall k :: 0 <= k < |FlaskCandidates| ==> Child(dir, FlaskCandidates[k]) !in t) ==> c.entryPoint == Some("app.py")) &&
      c.entryPoint.value in FlaskCandidates
  {
    FirstExistingSpec(t, dir, FlaskCandidates);
  }

  /** Generic: the first existing candidate's extension picks python, node
      or bash; without a candidate there is no run command. */
  lemma GenericRunCommand(t: Tree, dir: string, parse: JsonParser)
    ensures var c := GetConfig(Generic, t, dir, parse).value;
      (c.entryPoint.None? ==> c.runCommand.None?) &&
      (c.entryPoint.Some? ==> c.entryPoint.value in GenericEntries && Child(dir, c.entryPoint.value) in t) &&
      (c.entryPoint.Some? && EndsWith(c.entryPoint.value, ".py") ==> c.runCommand == Some("python " + c.entryPoint.value)) &&
      (c.entryPoint.Some? && EndsWith(c.entryPoint.value, ".js") ==> c.runCommand == Some("node " + c.entryPoint.value)) &&
      (c.entryPoint.Some? && EndsWith(c.entryPoint.value, ".sh") ==> c.runCommand == Some("bash " + c.entryPoint.value))
  {
    FirstExistingSpec(t, dir, GenericEntries);
  }
}
