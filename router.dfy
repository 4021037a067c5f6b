/** The task router (ai_orchestrator/router.py): scores a task description
    against a keyword table per task type, picks a model for each type from
    the available providers, and splits a task that touches several types
    into a chain of subtasks.

    The keyword patterns are kept as written and searched through the
    abstract `Regex` capability, always over the lower-cased description. */
module Router {
  import opened Text

  /** `TaskType`, in declaration order (ai_orchestrator/models/base.py). */
  datatype TaskType = Architecture | Roadmap | Coding | Debugging | Reasoning | Logic | CodeReview | Documentation | General

  /** The task types in declaration order: the order of the score dict. */
  const TaskTypes: seq<TaskType> := [Architecture, Roadmap, Coding, Debugging, Reasoning, Logic, CodeReview, Documentation, General]

  /** The position of a task type in declaration order. */
  function Index(t: TaskType): (i: nat)
    ensures i < |TaskTypes| && TaskTypes[i] == t
  {
    match t
    case Architecture => 0
    case Roadmap => 1
    case Coding => 2
    case Debugging => 3
    case Reasoning => 4
    case Logic => 5
    case CodeReview => 6
    case Documentation => 7
    case General => 8
  }

  lemma IndexOfTaskTypes()
    ensures forall i :: 0 <= i < |TaskTypes| ==> Index(TaskTypes[i]) == i
  {
  }

  datatype ModelProvider = OpenAI | Anthropic | Gemini | Moonshot

  /** The provider's `value`. */
  function ProviderName(p: ModelProvider): string
  {
    match p
    case OpenAI => "openai"
    case Anthropic => "anthropic"
    case Gemini => "gemini"
    case Moonshot => "moonshot"
  }

  /** `ModelProvider(name)` for a name that is some provider's value. */
  function ParseProvider(name: string): (r: Option<ModelProvider>)
    ensures r.Some? ==> ProviderName(r.value) == name
    ensures r.None? ==> forall p :: ProviderName(p) != name
  {
    if name == "openai" then Some(OpenAI)
    else if name == "anthropic" then Some(Anthropic)
    else if name == "gemini" then Some(Gemini)
    else if name == "moonshot" then Some(Moonshot)
    else None
  }

  /** The names of `available_models` that are provider values, in order,
      as providers. */
  function KnownProviders(names: seq<string>): (r: seq<ModelProvider>)
    ensures |r| <= |names|
    ensures forall p :: p in r <==> ProviderName(p) in names
  {
    if names == [] then []
    else
      var head := ParseProvider(names[0]);
      (if head.Some? then [head.value] else []) + KnownProviders(names[1..])
  }

  /** Filtering keeps the input order: the known providers of two lists
      one after the other are those of the first followed by those of the
      second. */
  lemma {:induction false} KnownProvidersConcat(a: seq<string>, b: seq<string>)
    ensures KnownProviders(a + b) == KnownProviders(a) + KnownProviders(b)
    decreases |a|
  {
    if a == [] {
      assert a + b == b;
    } else {
      assert (a + b)[0] == a[0] && (a + b)[1..] == a[1..] + b;
      KnownProvidersConcat(a[1..], b);
    }
  }

  /** `TASK_PATTERNS`, one row per task type in declaration order
      (GENERAL has none). */
  const TaskPatterns: seq<(TaskType, seq<Pattern>)> := [
    (Architecture, [Re("architect"), Re("design"), Re("structure"), Re("system design"),
                    Re("high.?level"), Re("overview"), Re("blueprint"), Re("schema"),
                    Re("database design"), Re("api design"), Re("microservice")]),
    (Roadmap, [Re("roadmap"), Re("plan"), Re("strategy"), Re("milestone"), Re("timeline"),
               Re("phase"), Re("sprint"), Re("project plan"), Re("release plan")]),
    (Coding, [Re("implement"), Re("code"), Re("write"), Re("function"), Re("class"),
              Re("script"), Re("program"), Re("develop"), Re("build"), Re("create.*function"),
              Re("api endpoint"), Re("module"), Re("library")]),
    (Debugging, [Re("debug"), Re("fix"), Re("error"), Re("bug"), Re("issue"), Re("problem"),
                 Re("not working"), Re("fails"), Re("crash"), Re("exception")]),
    (Reasoning, [Re("reason"), Re("logic"), Re("explain"), Re("why"), Re("analyze"),
                 Re("think"), Re("evaluate"), Re("compare"), Re("pros.?cons"),
                 Re("trade.?off"), Re("decision"), Re("choose"), Re("best approach")]),
    (Logic, [Re("algorithm"), Re("optimize"), Re("complexity"), Re("efficient"),
             Re("performance"), Re("mathematical"), Re("formula"), Re("calculate")]),
    (CodeReview, [Re("review"), Re("check"), Re("audit"), Re("inspect"), Re("feedback"),
                  Re("improve"), Re("refactor"), Re("quality"), Re("best practice"),
                  Re("security"), Re("vulnerability")]),
    (Documentation, [Re("document"), Re("readme"), Re("comment"), Re("docstring"),
                     Re("specification"), Re("wiki"), Re("guide"), Re("tutorial")])
  ]

  /** The rows of the keyword table follow the declaration order, and every
      task type but GENERAL has a row. */
  lemma TaskPatternsRows()
    ensures |TaskPatterns| == |TaskTypes| - 1 && InOrder(TaskPatterns)
  {
  }

  /** `MODEL_SPECIALIZATIONS`. */
  function Specialization(t: TaskType): ModelProvider
  {
    match t
    case Architecture => OpenAI
    case Roadmap => OpenAI
    case Coding => Anthropic
    case Debugging => Anthropic
    case Reasoning => Gemini
    case Logic => Gemini
    case CodeReview => Moonshot
    case Documentation => OpenAI
    case General => OpenAI
  }

  // ---------------------------------------------------------------------
  // Scoring.

  /** The total number of matches of the patterns `ps` in `text`. */
  function PatternScore(re: Regex, ps: seq<Pattern>, text: string): nat
  {
    if ps == [] then 0 else PatternScore(re, ps[..|ps| - 1], text) + re.findAll(ps[|ps| - 1], text)
  }

  /** The score of the `i`th task type over `text`: the matches of its
      keywords; GENERAL scores 0. */
  function Score(re: Regex, text: string, i: nat): nat
    requires i < |TaskTypes|
  {
    if i < |TaskPatterns| then PatternScore(re, TaskPatterns[i].1, text) else 0
  }

  /** Some pattern of `ps` is found in `text`. */
  predicate Matches(re: Regex, ps: seq<Pattern>, text: string)
  {
    exists k :: 0 <= k < |ps| && re.search(ps[k], text)
  }

  /** A keyword table whose rows follow the declaration order. */
  predicate InOrder(rows: seq<(TaskType, seq<Pattern>)>)
  {
    |rows| < |TaskTypes| && forall i :: 0 <= i < |rows| ==> rows[i].0 == TaskTypes[i]
  }

  /** The task types among the first `n` rows of a keyword table that have
      a pattern found in `text`, in table order. */
  function Matched(re: Regex, rows: seq<(TaskType, seq<Pattern>)>, text: string, n: nat): seq<TaskType>
    requires n <= |rows|
  {
    if n == 0 then []
    else Matched(re, rows, text, n - 1) + (if Matches(re, rows[n - 1].1, text) then [rows[n - 1].0] else [])
  }

  /** The task types a keyword table finds in `text`, GENERAL alone when
      it finds none. */
  function DetectedTypes(re: Regex, rows: seq<(TaskType, seq<Pattern>)>, text: string): seq<TaskType>
  {
    var m := Matched(re, rows, text, |rows|);
    if m == [] then [General] else m
  }

  /** `_detect_all_task_types(text)`. */
  function AllTaskTypes(re: Regex, text: string): seq<TaskType>
  {
    DetectedTypes(re, TaskPatterns, Lower(text))
  }

  lemma {:induction false} MatchedSpec(re: Regex, rows: seq<(TaskType, seq<Pattern>)>, text: string, n: nat)
    requires InOrder(rows) && n <= |rows|
    ensures var m := Matched(re, rows, text, n);
      (forall t :: t in m ==> Index(t) < n) &&
      (forall i :: 0 <= i < n ==> (TaskTypes[i] in m <==> Matches(re, rows[i].1, text))) &&
      (forall a, b :: 0 <= a < b < |m| ==> Index(m[a]) < Index(m[b]))
  {
    if n > 0 {
      MatchedSpec(re, rows, text, n - 1);
      var m0 := Matched(re, rows, text, n - 1);
      var last := rows[n - 1].0;
      var m := Matched(re, rows, text, n);
      assert m == m0 + (if Matches(re, rows[n - 1].1, text) then [last] else []);
      IndexOfTaskTypes();
      assert Index(last) == n - 1;
      assert last !in m0;
      forall a, b | 0 <= a < b < |m| ensures Index(m[a]) < Index(m[b]) {
        assert m[a] == m0[a];
        if b >= |m0| {
          assert m[b] == last && m0[a] in m0;
        } else {
          assert m[b] == m0[b];
        }
      }
      forall i | 0 <= i < n ensures TaskTypes[i] in m <==> Matches(re, rows[i].1, text) {
        if i < n - 1 {
          assert TaskTypes[i] != last;
        }
      }
    }
  }

  /** The detected types are never empty; a type with keywords is among them
      exactly when one of its keywords is found; they follow the table order,
      so none appears twice. */
  lemma DetectedTypesSpec(re: Regex, rows: seq<(TaskType, seq<Pattern>)>, text: string)
    requires InOrder(rows)
    ensures var r := DetectedTypes(re, rows, text);
      |r| >= 1 &&
      (forall i :: 0 <= i < |rows| ==> (TaskTypes[i] in r <==> Matches(re, rows[i].1, text))) &&
      (forall a, b :: 0 <= a < b < |r| ==> Index(r[a]) < Index(r[b]))
  {
    MatchedSpec(re, rows, text, |rows|);
    if Matched(re, rows, text, |rows|) == [] {
      assert forall i :: 0 <= i < |rows| ==> TaskTypes[i] != General;
    }
  }

  /** GENERAL is detected only when no row matches, and then alone. */
  lemma DetectedGeneral(re: Regex, rows: seq<(TaskType, seq<Pattern>)>, text: string)
    requires InOrder(rows)
    ensures var r := DetectedTypes(re, rows, text);
      (General in r <==> r == [General]) &&
      (r == [General] <==> forall i :: 0 <= i < |rows| ==> !Matches(re, rows[i].1, text))
  {
    MatchedSpec(re, rows, text, |rows|);
    var m := Matched(re, rows, text, |rows|);
    IndexOfTaskTypes();
    if m != [] {
      assert General !in m;
      var i := Index(m[0]);
      assert TaskTypes[i] in m;
    } else {
      forall i | 0 <= i < |rows| ensures !Matches(re, rows[i].1, text) {
        assert TaskTypes[i] !in m;
      }
    }
  }

  // ---------------------------------------------------------------------
  // Workflows.

  /** The index of a type in `priority_order`, 999 for one not listed. */
  function Rank(t: TaskType): nat
  {
    match t
    case Architecture => 0
    case Roadmap => 1
    case Reasoning => 2
    case Logic => 3
    case Coding => 4
    case Debugging => 5
    case CodeReview => 6
    case Documentation => 7
    case General => 999
  }

  /** Puts `t` before every type of no lower rank. */
  function InsertByRank(t: TaskType, ts: seq<TaskType>): seq<TaskType>
  {
    if ts == [] || Rank(t) <= Rank(ts[0]) then [t] + ts else [ts[0]] + InsertByRank(t, ts[1..])
  }

  /** `sorted(ts, key=rank)`, which is stable. */
  function SortByRank(ts: seq<TaskType>): seq<TaskType>
  {
    if ts == [] then [] else InsertByRank(ts[0], SortByRank(ts[1..]))
  }

  predicate RankSorted(ts: seq<TaskType>)
  {
    forall i, j :: 0 <= i < j < |ts| ==> Rank(ts[i]) <= Rank(ts[j])
  }

  lemma {:induction false} InsertByRankPermutes(t: TaskType, ts: seq<TaskType>)
    ensures multiset(InsertByRank(t, ts)) == multiset(ts) + multiset{t}
    decreases |ts|
  {
    if ts != [] && Rank(t) > Rank(ts[0]) {
      InsertByRankPermutes(t, ts[1..]);
      assert ts == [ts[0]] + ts[1..];
    }
  }

  lemma {:induction false} InsertByRankSpec(t: TaskType, ts: seq<TaskType>)
    requires RankSorted(ts)
    ensures RankSorted(InsertByRank(t, ts)) && multiset(InsertByRank(t, ts)) == multiset(ts) + multiset{t}
    decreases |ts|
  {
    InsertByRankPermutes(t, ts);
    if ts == [] || Rank(t) <= Rank(ts[0]) {
      forall i | 0 <= i < |ts| ensures Rank(t) <= Rank(ts[i]) {
        if i > 0 {
          assert Rank(ts[0]) <= Rank(ts[i]);
        }
      }
      ConsRankSorted(t, ts);
    } else {
      var rest := ts[1..];
      assert RankSorted(rest);
      InsertByRankSpec(t, rest);
      var r := InsertByRank(t, rest);
      assert InsertByRank(t, ts) == [ts[0]] + r;
      forall i | 0 <= i < |r| ensures Rank(ts[0]) <= Rank(r[i]) {
        assert r[i] in multiset(rest) + multiset{t};
        if r[i] != t {
          var j :| 0 <= j < |rest| && rest[j] == r[i];
          assert rest[j] == ts[j + 1];
        }
      }
      ConsRankSorted(ts[0], r);
    }
  }

  lemma ConsRankSorted(y: TaskType, r: seq<TaskType>)
    requires RankSorted(r) && forall i :: 0 <= i < |r| ==> Rank(y) <= Rank(r[i])
    ensures RankSorted([y] + r)
  {
    var s := [y] + r;
    forall i, j | 0 <= i < j < |s| ensures Rank(s[i]) <= Rank(s[j]) {
      assert s[j] == r[j - 1];
      if i > 0 {
        assert s[i] == r[i - 1];
      }
    }
  }

  /** Sorting by rank puts the types in `priority_order` and keeps each of
      them as often as it was given. */
  lemma {:induction false} SortByRankSpec(ts: seq<TaskType>)
    ensures RankSorted(SortByRank(ts)) && multiset(SortByRank(ts)) == multiset(ts)
    decreases |ts|
  {
    if ts != [] {
      SortByRankSpec(ts[1..]);
      InsertByRankSpec(ts[0], SortByRank(ts[1..]));
      assert ts == [ts[0]] + ts[1..];
    }
  }

  /** `task_type.value.replace('_', ' ').title()`. */
  function Title(t: TaskType): string
  {
    match t
    case Architecture => "Architecture"
    case Roadmap => "Roadmap"
    case Coding => "Coding"
    case Debugging => "Debugging"
    case Reasoning => "Reasoning"
    case Logic => "Logic"
    case CodeReview => "Code Review"
    case Documentation => "Documentation"
    case General => "General"
  }

  // The prefixes `_create_contextual_prompt` puts before the task.
  const ArchitecturePrefix := "Focus on the architecture and system design aspects of this task:\n\n"
  const RoadmapPrefix := "Create a roadmap and project plan for:\n\n"
  const CodingPrefix := "Implement the code for the following requirement:\n\n"
  const DebuggingPrefix := "Debug and fix issues in the following:\n\n"
  const ReasoningPrefix := "Analyze and reason about the following:\n\n"
  const LogicPrefix := "Provide algorithmic and logical analysis for:\n\n"
  const CodeReviewPrefix := "Review and provide feedback on:\n\n"
  const DocumentationPrefix := "Write documentation for:\n\n"

  /** The prefix `_create_contextual_prompt` puts before the task. */
  function PromptPrefix(t: TaskType): string
  {
    match t
    case Architecture => ArchitecturePrefix
    case Roadmap => RoadmapPrefix
    case Coding => CodingPrefix
    case Debugging => DebuggingPrefix
    case Reasoning => ReasoningPrefix
    case Logic => LogicPrefix
    case CodeReview => CodeReviewPrefix
    case Documentation => DocumentationPrefix
    case General => ""
  }

  /** `_create_contextual_prompt` over a prefix table: the original task,
      unchanged, after the type's prefix; with the prefixes above, a GENERAL
      prompt is the task itself. */
  function ContextualPrompt(prefix: TaskType -> string, task: string, t: TaskType): (r: string)
    ensures |r| >= |task| && r[|r| - |task|..] == task
    ensures r[..|r| - |task|] == prefix(t)
    ensures prefix == PromptPrefix && t == General ==> r == task
  {
    prefix(t) + task
  }

  // The system prompts of `_get_system_prompt`.
  const ArchitectureSystemPrompt := "You are a senior software architect. Focus on system design, scalability, and best practices. Provide clear architectural diagrams in text format when helpful."
  const RoadmapSystemPrompt := "You are a technical project manager. Create detailed, actionable roadmaps with clear milestones and timelines."
  const CodingSystemPrompt := "You are an expert software engineer. Write clean, well-documented, production-ready code. Include error handling and follow best practices."
  const DebuggingSystemPrompt := "You are a debugging expert. Analyze issues methodically, identify root causes, and provide clear solutions with explanations."
  const ReasoningSystemPrompt := "You are an analytical thinker. Break down complex problems, evaluate trade-offs, and provide well-reasoned conclusions."
  const LogicSystemPrompt := "You are an algorithms expert. Focus on efficiency, complexity analysis, and optimal solutions."
  const CodeReviewSystemPrompt := "You are a code review specialist. Identify issues, suggest improvements, check for security vulnerabilities, and ensure code quality."
  const DocumentationSystemPrompt := "You are a technical writer. Create clear, comprehensive documentation that is easy to understand."
  const GeneralSystemPrompt := "You are a helpful AI assistant. Provide clear, accurate, and helpful responses."

  /** `_get_system_prompt`. */
  function SystemPrompt(t: TaskType): string
  {
    match t
    case Architecture => ArchitectureSystemPrompt
    case Roadmap => RoadmapSystemPrompt
    case Coding => CodingSystemPrompt
    case Debugging => DebuggingSystemPrompt
    case Reasoning => ReasoningSystemPrompt
    case Logic => LogicSystemPrompt
    case CodeReview => CodeReviewSystemPrompt
    case Documentation => DocumentationSystemPrompt
    case General => GeneralSystemPrompt
  }

  datatype SubTask = SubTask(
    id: nat,
    description: string,
    taskType: TaskType,
    targetModel: ModelProvider,
    prompt: string,
    systemPrompt: Option<string>,
    dependencies: seq<nat>)

  /** The task types of a list of subtasks. */
  function TypesOf(s: seq<SubTask>): seq<TaskType>
  {
    seq(|s|, k requires 0 <= k < |s| => s[k].taskType)
  }

  /** The subtasks are numbered 1 to n in order, the first depends on
      nothing and each other one on exactly the one before it. */
  predicate Chained(subtasks: seq<SubTask>)
  {
    forall k :: 0 <= k < |subtasks| ==>
      subtasks[k].id == k + 1 && subtasks[k].dependencies == (if k == 0 then [] else [k])
  }

  class TaskRouter {
    const availableModels: seq<ModelProvider>
    /** The tables of `_create_contextual_prompt` and `_get_system_prompt`,
        the same for every router: `PromptPrefix` and `SystemPrompt`, held
        as function values so that proofs about workflows do not unfold
        the literal prompt texts. */
    const promptPrefix: TaskType -> string
    const systemPrompt: TaskType -> string

    /** Keeps the names that are provider values, in the order given. */
    constructor(names: seq<string>)
      ensures availableModels == KnownProviders(names)
      ensures promptPrefix == PromptPrefix && systemPrompt == SystemPrompt
    {
      availableModels := KnownProviders(names);
      promptPrefix := PromptPrefix;
      systemPrompt := SystemPrompt;
    }

    /** `get_target_model`: the type's specialist when available, else the
        first available model; None where the source raises ValueError
        because no model is available. */
    function GetTargetModel(t: TaskType): (r: Option<ModelProvider>)
      ensures r.None? <==> availableModels == []
      ensures r.Some? ==> r.value in availableModels
      ensures Specialization(t) in availableModels ==> r == Some(Specialization(t))
      ensures r.Some? && r.value != Specialization(t) ==> r.value == availableModels[0]
    {
      if Specialization(t) in availableModels then Some(Specialization(t))
      else if availableModels != [] then Some(availableModels[0])
      else None
    }

    /** The scoring loops of `detect_task_type`: every type's number of
        pattern matches in `text`, the general type scoring zero. */
    static method ScoreTypes(re: Regex, text: string) returns (scores: seq<nat>)
      ensures |scores| == |TaskTypes|
      ensures forall k :: 0 <= k < |TaskTypes| ==> scores[k] == Score(re, text, k)
    {
      scores := seq(|TaskTypes|, _ => 0);
      var i := 0;
      while i < |TaskPatterns|
        invariant 0 <= i <= |TaskPatterns|
        invariant |scores| == |TaskTypes|
        invariant forall k :: 0 <= k < |TaskTypes| ==> scores[k] == if k < i then Score(re, text, k) else 0
      {
        var patterns := TaskPatterns[i].1;
        var j := 0;
        while j < |patterns|
          invariant 0 <= j <= |patterns|
          invariant |scores| == |TaskTypes|
          invariant scores[i] == PatternScore(re, patterns[..j], text)
          invariant forall k :: 0 <= k < |TaskTypes| && k != i ==> scores[k] == if k < i then Score(re, text, k) else 0
        {
          assert patterns[..j + 1][..j] == patterns[..j];
          scores := scores[i := scores[i] + re.findAll(patterns[j], text)];
          j := j + 1;
        }
        assert patterns[..j] == patterns;
        i := i + 1;
      }
      assert forall k :: 0 <= k < |TaskTypes| ==> scores[k] == Score(re, text, k);
    }

    /** `detect_task_type`: GENERAL when no keyword is found; otherwise the
        first type, in declaration order, with the highest score. */
    method DetectTaskType(re: Regex, text: string) returns (r: TaskType)
      ensures r == General <==> forall i :: 0 <= i < |TaskTypes| ==> Score(re, Lower(text), i) == 0
      ensures r != General ==>
        Score(re, Lower(text), Index(r)) > 0 &&
        (forall j :: 0 <= j < |TaskTypes| ==> Score(re, Lower(text), j) <= Score(re, Lower(text), Index(r))) &&
        (forall j :: 0 <= j < Index(r) ==> Score(re, Lower(text), j) < Score(re, Lower(text), Index(r)))
    {
      var lower := Lower(text);
      var scores := ScoreTypes(re, lower);
      // max(scores.values())
      var maxScore := scores[0];
      ghost var at := 0;
      var k := 1;
      while k < |scores|
        invariant 1 <= k <= |scores|
        invariant 0 <= at < k && scores[at] == maxScore
        invariant forall j :: 0 <= j < k ==> scores[j] <= maxScore
      {
        if scores[k] > maxScore {
          maxScore := scores[k];
          at := k;
        }
        k := k + 1;
      }
      assert scores[|TaskTypes| - 1] == 0;
      if maxScore > 0 {
        k := 0;
        while scores[k] != maxScore
          invariant 0 <= k <= at
          invariant forall j :: 0 <= j < k ==> scores[j] < maxScore
          decreases at - k
        {
          k := k + 1;
        }
        IndexOfTaskTypes();
        r := TaskTypes[k];
      } else {
        r := General;
      }
    }

    /** The loops of `_detect_all_task_types` over a keyword table in
        declaration order: each row's type is taken at its first pattern
        found in `text`. */
    static method MatchRows(re: Regex, rows: seq<(TaskType, seq<Pattern>)>, text: string)
      returns (detected: seq<TaskType>)
      requires InOrder(rows)
      ensures detected == Matched(re, rows, text, |rows|)
    {
      detected := [];
      var i := 0;
      while i < |rows|
        invariant 0 <= i <= |rows|
        invariant detected == Matched(re, rows, text, i)
      {
        MatchedSpec(re, rows, text, i);
        var patterns := rows[i].1;
        var j := 0;
        while j < |patterns|
          invariant 0 <= j <= |patterns|
          invariant detected == Matched(re, rows, text, i)
          invariant forall m :: 0 <= m < j ==> !re.search(patterns[m], text)
        {
          if re.search(patterns[j], text) {
            IndexOfTaskTypes();
            if rows[i].0 !in detected {
              detected := detected + [rows[i].0];
            }
            break;
          }
          j := j + 1;
        }
        i := i + 1;
      }
    }

    /** `_detect_all_task_types`: the types whose keywords are found, in
        declaration order, GENERAL alone when none is. */
    method DetectAllTaskTypes(re: Regex, text: string) returns (r: seq<TaskType>)
      ensures r == AllTaskTypes(re, text)
    {
      var lower := Lower(text);
      TaskPatternsRows();
      var detected := MatchRows(re, TaskPatterns, lower);
      r := if detected == [] then [General] else detected;
    }

    /** The subtask the workflow makes of type `t` at position `k`. */
    function Phase(task: string, t: TaskType, k: nat): SubTask
      requires availableModels != []
    {
      SubTask(k + 1, Title(t) + " phase", t, GetTargetModel(t).value, ContextualPrompt(promptPrefix, task, t),
              Some(systemPrompt(t)), if k == 0 then [] else [k])
    }

    /** The subtasks `_create_multi_model_workflow` makes of `types`, None
        where the source raises because no model is available. */
    function Workflow(task: string, types: seq<TaskType>): Option<seq<SubTask>>
    {
      var sorted := SortByRank(types);
      if sorted == [] then Some([])
      else if availableModels == [] then None
      else Some(seq(|sorted|, k requires 0 <= k < |sorted| => Phase(task, sorted[k], k)))
    }

    lemma WorkflowPhases(task: string, types: seq<TaskType>)
      ensures var w := Workflow(task, types);
        w.Some? ==>
          TypesOf(w.value) == SortByRank(types) && Chained(w.value) &&
          forall k :: 0 <= k < |w.value| ==>
            Some(w.value[k].targetModel) == GetTargetModel(w.value[k].taskType) &&
            w.value[k].prompt == ContextualPrompt(promptPrefix, task, w.value[k].taskType)
    {
    }

    /** A workflow holds one subtask per given type, sorted by
        `priority_order`, chained one after the other, each routed to its
        type's model and prompted with the task behind the type's prefix. */
    lemma WorkflowShape(task: string, types: seq<TaskType>)
      ensures var w := Workflow(task, types);
        (w.None? <==> types != [] && availableModels == []) &&
        (w.Some? ==>
          var s := w.value;
          |s| == |types| && Chained(s) &&
          multiset(TypesOf(s)) == multiset(types) && RankSorted(TypesOf(s)) &&
          (forall k :: 0 <= k < |s| ==>
            Some(s[k].targetModel) == GetTargetModel(s[k].taskType) &&
            s[k].prompt == ContextualPrompt(promptPrefix, task, s[k].taskType)))
    {
      SortByRankSpec(types);
      var sorted := SortByRank(types);
      assert |sorted| == |multiset(sorted)| == |types|;
      WorkflowPhases(task, types);
    }

    /** `_create_multi_model_workflow`. */
    method CreateMultiModelWorkflow(task: string, types: seq<TaskType>) returns (r: Option<seq<SubTask>>)
      ensures r == Workflow(task, types)
    {
      var sorted := SortByRank(types);
      r := ChainPhases(task, sorted);
      if r.Some? {
        if sorted != [] {
          PhasesUpToAt(task, sorted, |sorted|);
        }
        WorkflowOf(task, types, r.value);
      }
    }

    /** The phases of the first `n` sorted types. */
    function PhasesUpTo(task: string, sorted: seq<TaskType>, n: nat): (r: seq<SubTask>)
      requires n <= |sorted| && (n > 0 ==> availableModels != [])
      reads this
      ensures |r| == n
    {
      if n == 0 then [] else PhasesUpTo(task, sorted, n - 1) + [Phase(task, sorted[n - 1], n - 1)]
    }

    lemma {:induction false} PhasesUpToAt(task: string, sorted: seq<TaskType>, n: nat)
      requires n <= |sorted| && (n > 0 ==> availableModels != [])
      ensures forall k :: 0 <= k < n ==> PhasesUpTo(task, sorted, n)[k] == Phase(task, sorted[k], k)
    {
      if n > 0 {
        PhasesUpToAt(task, sorted, n - 1);
        var before := PhasesUpTo(task, sorted, n - 1);
        var last := Phase(task, sorted[n - 1], n - 1);
        assert PhasesUpTo(task, sorted, n) == before + [last];
        forall k | 0 <= k < n
          ensures PhasesUpTo(task, sorted, n)[k] == Phase(task, sorted[k], k)
        {
          if k < n - 1 {
            assert (before + [last])[k] == before[k];
          }
        }
      }
    }

    /** The loop of `_create_multi_model_workflow` over the sorted types:
        one phase per type, numbered from 1, each depending on the one
        before; None where the source raises because no model is
        available. */
    method ChainPhases(task: string, sorted: seq<TaskType>) returns (r: Option<seq<SubTask>>)
      ensures r.None? <==> sorted != [] && availableModels == []
      ensures r.Some? ==> (sorted != [] ==> availableModels != []) && r.value == PhasesUpTo(task, sorted, |sorted|)
    {
      var subtasks: seq<SubTask> := [];
      var taskId := 1;
      var previousId: Option<nat> := None;
      for i := 0 to |sorted|
        invariant taskId == i + 1
        invariant previousId == if i == 0 then None else Some(i)
        invariant i > 0 ==> availableModels != []
        invariant subtasks == PhasesUpTo(task, sorted, i)
      {
        var next := NextPhase(task, sorted[i], taskId, previousId);
        if next.None? {
          return None;
        }
        subtasks := subtasks + [next.value];
        previousId := Some(taskId);
        taskId := taskId + 1;
      }
      r := Some(subtasks);
    }

    /** One pass of the loop in `_create_multi_model_workflow`: the subtask
        of type `t` numbered `taskId`, depending on the previous one; None
        where the source raises because no model is available. */
    method NextPhase(task: string, t: TaskType, taskId: nat, previousId: Option<nat>) returns (r: Option<SubTask>)
      requires taskId >= 1 && previousId == if taskId == 1 then None else Some(taskId - 1)
      ensures r.None? <==> availableModels == []
      ensures r.Some? ==> r.value == Phase(task, t, taskId - 1)
    {
      var target := GetTargetModel(t);
      if target.None? {
        return None;
      }
      var prompt := ContextualPrompt(promptPrefix, task, t);
      r := Some(SubTask(taskId, Title(t) + " phase", t, target.value, prompt, Some(systemPrompt(t)),
                        if previousId.Some? then [previousId.value] else []));
    }

    /** Subtasks that are the phases of the sorted types make the workflow. */
    lemma WorkflowOf(task: string, types: seq<TaskType>, subtasks: seq<SubTask>)
      requires |subtasks| == |SortByRank(types)|
      requires subtasks != [] ==>
        (availableModels != [] && forall k :: 0 <= k < |subtasks| ==> subtasks[k] == Phase(task, SortByRank(types)[k], k))
      ensures Workflow(task, types) == Some(subtasks)
    {
      var sorted := SortByRank(types);
      if sorted != [] {
        assert subtasks == seq(|sorted|, k requires 0 <= k < |sorted| => Phase(task, sorted[k], k));
      }
    }

    /** `analyze_and_route`: one subtask carrying the task itself when at
        most one type is detected, otherwise the multi-model workflow. */
    method AnalyzeAndRoute(re: Regex, task: string) returns (r: Option<seq<SubTask>>)
      ensures var types := AllTaskTypes(re, task);
        if |types| <= 1 then
          r == if availableModels == [] then None
               else Some([SubTask(1, task, types[0], GetTargetModel(types[0]).value, task,
                                  Some(systemPrompt(types[0])), [])])
        else r == Workflow(task, types)
    {
      TaskPatternsRows();
      DetectedTypesSpec(re, TaskPatterns, Lower(task));
      var types := DetectAllTaskTypes(re, task);
      if |types| <= 1 {
        var t := if types != [] then types[0] else General;
        var target := GetTargetModel(t);
        if target.None? {
          return None;
        }
        r := Some([SubTask(1, task, t, target.value, task, Some(systemPrompt(t)), [])]);
      } else {
        r := CreateMultiModelWorkflow(task, types);
      }
    }
  }

  /** What `analyze_and_route` promises a caller: it raises only when no
      model is available; a task of one type (or none) becomes one subtask
      with id 1, no dependencies and the task as its prompt; a task of
      several types becomes a chain with one subtask per detected type. */
  lemma RouteShape(router: TaskRouter, re: Regex, task: string)
    ensures var types := AllTaskTypes(re, task);
      |types| > 1 ==>
        var w := router.Workflow(task, types);
        (w.None? <==> router.availableModels == []) &&
        (w.Some? ==> |w.value| == |types| && Chained(w.value) && w.value[0].dependencies == [])
  {
    TaskPatternsRows();
    DetectedTypesSpec(re, TaskPatterns, Lower(task));
    router.WorkflowShape(task, AllTaskTypes(re, task));
  }
}
