/** Validating a config, and what a clean validation guarantees to the lookups made later. */
module ConfigValidation {
  import opened Options

  datatype Provider = OpenRouter | Anthropic | Ollama
  datatype Mode = Agent | ClaudeCode
  datatype Preset = Preset(provider: Provider, mode: Option<Mode>, model: Option<string>)

  datatype Project = Project(
    name: string, prefix: string, repo: string, runtime: Option<string>, mode: Mode,
    timeoutSecs: nat, maxWorkers: nat)

  datatype Peer = Peer(name: string, prefix: string, role: string, runtime: Option<string>)

  datatype Config = Config(
    name: string, defaultRuntime: Option<string>,
    projects: seq<Project>, agents: seq<Peer>,
    presets: map<string, Preset>, providers: set<Provider>, repos: set<string>,
    vectorWeight: real, keywordWeight: real, chunkSize: nat, chunkOverlap: nat, dailyBudget: real)

  datatype Problem =
    | EmptySystemName
    | EmptyProjectName
    | EmptyPrefix(project: string)
    | DuplicateProject(name: string)
    | DuplicatePrefix(prefix: string)
    | ZeroTimeout(project: string)
    | ZeroWorkers(project: string)
    | UnknownProjectRuntime(project: string, runtime: string)
    | NoOrchestrator
    | EmptyAgentName
    | DuplicateAgent(name: string)
    | DuplicateAgentPrefix(prefix: string)
    | UnknownAgentRuntime(agent: string, runtime: string)
    | UnknownDefaultRuntime(runtime: string)
    | UnconfiguredProvider(preset: string)
    | UnknownRepo(project: string, repo: string)
    | WeightsOff
    | OverlapTooLarge
    | BudgetNotPositive

  // ---------------------------------------------------------------------------------------
  // Runtimes

  function BuiltIn(name: string): Option<Preset> {
    if name == "openrouter_agent" || name == "openrouter_claude_code" then
      Some(Preset(OpenRouter, Some(Agent), None))
    else if name == "anthropic_agent" || name == "anthropic_claude_code" then
      Some(Preset(Anthropic, Some(Agent), None))
    else if name == "ollama_agent" || name == "ollama_claude_code" then
      Some(Preset(Ollama, Some(Agent), None))
    else None
  }

  function PresetNamed(c: Config, name: string): Option<Preset> {
    if name in c.presets then Some(c.presets[name]) else BuiltIn(name)
  }

  function DefaultProvider(c: Config): Option<Provider> {
    if OpenRouter in c.providers then Some(OpenRouter)
    else if Anthropic in c.providers then Some(Anthropic)
    else if Ollama in c.providers then Some(Ollama)
    else None
  }

  /** A named preset with its mode filled in, or else the default provider. */
  function ResolvePreset(c: Config, name: Option<string>, fallback: Mode): Preset {
    match name
    case Some(n) =>
      (match PresetNamed(c, n)
       case Some(p) => if p.mode.None? then p.(mode := Some(fallback)) else p
       case None => ProviderFallback(c, fallback))
    case None => ProviderFallback(c, fallback)
  }

  function ProviderFallback(c: Config, fallback: Mode): Preset {
    var d := DefaultProvider(c);
    Preset(if d.Some? then d.value else OpenRouter, Some(fallback), None)
  }

  /** The first project of that name. */
  function ProjectNamed(ps: seq<Project>, name: string): Option<Project> {
    if ps == [] then None else if ps[0].name == name then Some(ps[0]) else ProjectNamed(ps[1..], name)
  }

  function RuntimeForProject(c: Config, name: string): Preset {
    match ProjectNamed(c.projects, name)
    case Some(p) => ResolvePreset(c, if p.runtime.Some? then p.runtime else c.defaultRuntime, p.mode)
    case None => ResolvePreset(c, c.defaultRuntime, Agent)
  }

  // ---------------------------------------------------------------------------------------
  // The problems of a config, section by section

  function When(b: bool, p: Problem): seq<Problem> {
    if b then [p] else []
  }

  /** Report `p` when it applies. */
  function Push(errors: seq<Problem>, b: bool, p: Problem): (r: seq<Problem>)
    ensures r == errors + When(b, p)
  {
    if b then errors + [p] else errors
  }

  predicate UnknownRuntime(c: Config, runtime: Option<string>) {
    runtime.Some? && PresetNamed(c, runtime.value).None?
  }

  /** The problems of project `i`. */
  function ProjectProblems(c: Config, i: nat): seq<Problem>
    requires i < |c.projects|
  {
    var d := c.projects[i];
    ProblemsOf(d, NameTaken(c, i), PrefixTaken(c, i), UnknownRuntime(c, d.runtime))
  }

  predicate NameTaken(c: Config, i: nat)
    requires i < |c.projects|
  {
    exists j :: 0 <= j < i && c.projects[j].name == c.projects[i].name
  }

  predicate PrefixTaken(c: Config, i: nat)
    requires i < |c.projects|
  {
    exists j :: 0 <= j < i && c.projects[j].prefix == c.projects[i].prefix
  }

  function ProblemsOf(d: Project, nameTaken: bool, prefixTaken: bool, unknownRuntime: bool): seq<Problem> {
    When(d.name == "", EmptyProjectName)
    + When(d.prefix == "", EmptyPrefix(d.name))
    + When(nameTaken, DuplicateProject(d.name))
    + When(prefixTaken, DuplicatePrefix(d.prefix))
    + When(d.timeoutSecs == 0, ZeroTimeout(d.name))
    + When(d.maxWorkers == 0, ZeroWorkers(d.name))
    + (if unknownRuntime && d.runtime.Some? then [UnknownProjectRuntime(d.name, d.runtime.value)] else [])
  }

  function AgentProblems(c: Config, i: nat): seq<Problem>
    requires i < |c.agents|
  {
    var a := c.agents[i];
    When(a.name == "", EmptyAgentName)
    + When(exists j :: 0 <= j < i && c.agents[j].name == a.name, DuplicateAgent(a.name))
    + When(a.prefix != "" && exists j :: 0 <= j < i && c.agents[j].prefix == a.prefix, DuplicateAgentPrefix(a.prefix))
    + (if UnknownRuntime(c, a.runtime) then [UnknownAgentRuntime(a.name, a.runtime.value)] else [])
  }

  function RepoProblems(c: Config, i: nat): seq<Problem>
    requires i < |c.projects|
  {
    var d := c.projects[i];
    When(!("/" <= d.repo) && !("~" <= d.repo) && d.repo !in c.repos, UnknownRepo(d.name, d.repo))
  }

  function PresetProblems(c: Config, name: string): seq<Problem>
    requires name in c.presets
  {
    When(c.presets[name].provider !in c.providers, UnconfiguredProvider(name))
  }

  /** The reports of a section's items, one after the other. */
  function Flatten(reports: seq<seq<Problem>>): seq<Problem> {
    if reports == [] then [] else Flatten(reports[..|reports| - 1]) + reports[|reports| - 1]
  }

  function ProjectSection(c: Config): seq<seq<Problem>> {
    seq(|c.projects|, i requires 0 <= i < |c.projects| => ProjectProblems(c, i))
  }

  function AgentSection(c: Config): seq<seq<Problem>> {
    seq(|c.agents|, i requires 0 <= i < |c.agents| => AgentProblems(c, i))
  }

  function RepoSection(c: Config): seq<seq<Problem>> {
    seq(|c.projects|, i requires 0 <= i < |c.projects| => RepoProblems(c, i))
  }

  function PresetSection(c: Config, order: seq<string>): seq<seq<Problem>>
    requires forall i :: 0 <= i < |order| ==> order[i] in c.presets
  {
    seq(|order|, i requires 0 <= i < |order| => PresetProblems(c, order[i]))
  }

  predicate Orchestrated(c: Config) {
    exists i :: 0 <= i < |c.agents| && c.agents[i].role == "orchestrator"
  }

  predicate WeightsAreOff(c: Config) {
    var off := c.vectorWeight + c.keywordWeight - 1.0;
    off > 0.01 || off < -0.01
  }

  /** All problems, in the order they are reported; `order` is the iteration order of the
      preset map. */
  function Problems(c: Config, order: seq<string>): seq<Problem>
    requires forall i :: 0 <= i < |order| ==> order[i] in c.presets
  {
    When(c.name == "", EmptySystemName)
    + Flatten(ProjectSection(c))
    + When(c.agents != [] && !Orchestrated(c), NoOrchestrator)
    + Flatten(AgentSection(c))
    + (if UnknownRuntime(c, c.defaultRuntime) then [UnknownDefaultRuntime(c.defaultRuntime.value)] else [])
    + Flatten(PresetSection(c, order))
    + Flatten(RepoSection(c))
    + When(WeightsAreOff(c), WeightsOff)
    + When(c.chunkOverlap >= c.chunkSize, OverlapTooLarge)
    + When(c.dailyBudget <= 0.0, BudgetNotPositive)
  }

  // ---------------------------------------------------------------------------------------
  // The validator

  lemma {:induction false} FlattenStep(reports: seq<seq<Problem>>, n: nat)
    requires n < |reports|
    ensures Flatten(reports[..n + 1]) == Flatten(reports[..n]) + reports[n]
  {
    assert reports[..n + 1][..n] == reports[..n];
  }

  /** The names and prefixes of the projects before `i`. */
  ghost predicate SeenProjects(c: Config, i: nat, names: set<string>, prefixes: set<string>)
    requires i <= |c.projects|
  {
    && (forall n :: n in names <==> exists j :: 0 <= j < i && c.projects[j].name == n)
    && (forall n :: n in prefixes <==> exists j :: 0 <= j < i && c.projects[j].prefix == n)
  }

  lemma {:induction false} SeenProjectsNext(c: Config, i: nat, names: set<string>, prefixes: set<string>)
    requires i < |c.projects| && SeenProjects(c, i, names, prefixes)
    ensures SeenProjects(c, i + 1, names + {c.projects[i].name}, prefixes + {c.projects[i].prefix})
  {
  }

  /** The names and non-empty prefixes of the agents before `i`. */
  ghost predicate SeenAgents(c: Config, i: nat, names: set<string>, prefixes: set<string>)
    requires i <= |c.agents|
  {
    && (forall n :: n in names <==> exists j :: 0 <= j < i && c.agents[j].name == n)
    && (forall n :: n in prefixes <==> n != "" && exists j :: 0 <= j < i && c.agents[j].prefix == n)
  }

  lemma {:induction false} SeenAgentsNext(c: Config, i: nat, names: set<string>, prefixes: set<string>)
    requires i < |c.agents| && SeenAgents(c, i, names, prefixes)
    ensures var a := c.agents[i];
            SeenAgents(c, i + 1, names + {a.name}, if a.prefix != "" then prefixes + {a.prefix} else prefixes)
  {
  }

  method CheckProject(c: Config, i: nat, seenNames: set<string>, seenPrefixes: set<string>)
    returns (found: seq<Problem>)
    requires i < |c.projects| && SeenProjects(c, i, seenNames, seenPrefixes)
    ensures found == ProjectProblems(c, i)
  {
    var d := c.projects[i];
    found := When(d.name == "", EmptyProjectName);
    found := Push(found, d.prefix == "", EmptyPrefix(d.name));
    found := Push(found, d.name in seenNames, DuplicateProject(d.name));
    found := Push(found, d.prefix in seenPrefixes, DuplicatePrefix(d.prefix));
    found := Push(found, d.timeoutSecs == 0, ZeroTimeout(d.name));
    found := Push(found, d.maxWorkers == 0, ZeroWorkers(d.name));
    if d.runtime.Some? && PresetNamed(c, d.runtime.value).None? {
      found := found + [UnknownProjectRuntime(d.name, d.runtime.value)];
    }
  }

  method CheckAgent(c: Config, i: nat, seenNames: set<string>, seenPrefixes: set<string>)
    returns (found: seq<Problem>)
    requires i < |c.agents| && SeenAgents(c, i, seenNames, seenPrefixes)
    ensures found == AgentProblems(c, i)
  {
    var a := c.agents[i];
    found := When(a.name == "", EmptyAgentName);
    found := Push(found, a.name in seenNames, DuplicateAgent(a.name));
    found := Push(found, a.prefix != "" && a.prefix in seenPrefixes, DuplicateAgentPrefix(a.prefix));
    if a.runtime.Some? && PresetNamed(c, a.runtime.value).None? {
      found := found + [UnknownAgentRuntime(a.name, a.runtime.value)];
    }
  }

  method ValidateProjects(c: Config) returns (errors: seq<Problem>)
    ensures errors == Flatten(ProjectSection(c))
  {
    errors := [];
    var seenNames, seenPrefixes: set<string> := {}, {};
    for i := 0 to |c.projects|
      invariant errors == Flatten(ProjectSection(c)[..i])
      invariant SeenProjects(c, i, seenNames, seenPrefixes)
    {
      var d := c.projects[i];
      var found := CheckProject(c, i, seenNames, seenPrefixes);
      FlattenStep(ProjectSection(c), i);
      errors := errors + found;
      SeenProjectsNext(c, i, seenNames, seenPrefixes);
      seenNames := seenNames + {d.name};
      seenPrefixes := seenPrefixes + {d.prefix};
    }
    assert ProjectSection(c)[..|c.projects|] == ProjectSection(c);
  }

  method ValidateAgents(c: Config) returns (errors: seq<Problem>)
    ensures errors == Flatten(AgentSection(c))
  {
    errors := [];
    var seenNames, seenPrefixes: set<string> := {}, {};
    for i := 0 to |c.agents|
      invariant errors == Flatten(AgentSection(c)[..i])
      invariant SeenAgents(c, i, seenNames, seenPrefixes)
    {
      var a := c.agents[i];
      var found := CheckAgent(c, i, seenNames, seenPrefixes);
      FlattenStep(AgentSection(c), i);
      errors := errors + found;
      SeenAgentsNext(c, i, seenNames, seenPrefixes);
      seenNames := seenNames + {a.name};
      seenPrefixes := if a.prefix != "" then seenPrefixes + {a.prefix} else seenPrefixes;
    }
    assert AgentSection(c)[..|c.agents|] == AgentSection(c);
  }

  method ValidatePresets(c: Config, order: seq<string>) returns (errors: seq<Problem>)
    requires forall name :: name in order <==> name in c.presets
    ensures errors == Flatten(PresetSection(c, order))
  {
    errors := [];
    for i := 0 to |order|
      invariant errors == Flatten(PresetSection(c, order)[..i])
    {
      FlattenStep(PresetSection(c, order), i);
      errors := Push(errors, c.presets[order[i]].provider !in c.providers, UnconfiguredProvider(order[i]));
    }
    assert PresetSection(c, order)[..|order|] == PresetSection(c, order);
  }

  method ValidateRepos(c: Config) returns (errors: seq<Problem>)
    ensures errors == Flatten(RepoSection(c))
  {
    errors := [];
    for i := 0 to |c.projects|
      invariant errors == Flatten(RepoSection(c)[..i])
    {
      FlattenStep(RepoSection(c), i);
      var d := c.projects[i];
      errors := Push(errors, !("/" <= d.repo) && !("~" <= d.repo) && d.repo !in c.repos, UnknownRepo(d.name, d.repo));
    }
    assert RepoSection(c)[..|c.projects|] == RepoSection(c);
  }

  method Validate(c: Config, order: seq<string>) returns (errors: seq<Problem>)
    requires forall name :: name in order <==> name in c.presets
    ensures errors == Problems(c, order)
  {
    errors := if c.name == "" then [EmptySystemName] else [];
    var projects := ValidateProjects(c);
    errors := errors + projects;
    errors := Push(errors, c.agents != [] && !Orchestrated(c), NoOrchestrator);
    var agents := ValidateAgents(c);
    errors := errors + agents;
    errors := errors
      + if UnknownRuntime(c, c.defaultRuntime) then [UnknownDefaultRuntime(c.defaultRuntime.value)] else [];
    var presets := ValidatePresets(c, order);
    errors := errors + presets;
    var repos := ValidateRepos(c);
    errors := errors + repos;
    errors := Push(errors, WeightsAreOff(c), WeightsOff);
    errors := Push(errors, c.chunkOverlap >= c.chunkSize, OverlapTooLarge);
    errors := Push(errors, c.dailyBudget <= 0.0, BudgetNotPositive);
  }

  // ---------------------------------------------------------------------------------------
  // What no errors means

  ghost predicate Sound(c: Config) {
    && c.name != ""
    && ProjectsSound(c)
    && AgentsSound(c)
    && !UnknownRuntime(c, c.defaultRuntime)
    && (forall name :: name in c.presets ==> c.presets[name].provider in c.providers)
    && -0.01 <= c.vectorWeight + c.keywordWeight - 1.0 <= 0.01
    && c.chunkOverlap < c.chunkSize
    && c.dailyBudget > 0.0
  }

  /** A section is silent exactly when each of its items is. */
  lemma {:induction false} FlattenEmptyIff(reports: seq<seq<Problem>>)
    ensures Flatten(reports) == [] <==> forall i :: 0 <= i < |reports| ==> reports[i] == []
  {
    if reports != [] {
      var init, last := reports[..|reports| - 1], reports[|reports| - 1];
      FlattenEmptyIff(init);
      assert |Flatten(reports)| == |Flatten(init)| + |last|;
      assert forall i :: 0 <= i < |init| ==> init[i] == reports[i];
    }
  }

  ghost predicate ProjectsSound(c: Config) {
    && (forall i :: 0 <= i < |c.projects| ==> ProjectSound(c, c.projects[i]))
    && (forall i, j :: 0 <= i < j < |c.projects| ==>
          c.projects[i].name != c.projects[j].name && c.projects[i].prefix != c.projects[j].prefix)
  }

  predicate ProjectSound(c: Config, p: Project) {
    && p.name != "" && p.prefix != "" && p.timeoutSecs > 0 && p.maxWorkers > 0
    && !UnknownRuntime(c, p.runtime)
    && ("/" <= p.repo || "~" <= p.repo || p.repo in c.repos)
  }

  ghost predicate AgentsSound(c: Config) {
    && (c.agents != [] ==> Orchestrated(c))
    && (forall i :: 0 <= i < |c.agents| ==> c.agents[i].name != "" && !UnknownRuntime(c, c.agents[i].runtime))
    && (forall i, j :: 0 <= i < j < |c.agents| ==>
          && c.agents[i].name != c.agents[j].name
          && (c.agents[j].prefix != "" ==> c.agents[i].prefix != c.agents[j].prefix))
  }

  /** Project `i` is fine by itself and clashes with none before it. */
  ghost predicate ProjectClean(c: Config, i: nat)
    requires i < |c.projects|
  {
    && ProjectSound(c, c.projects[i])
    && forall j :: 0 <= j < i ==>
         c.projects[j].name != c.projects[i].name && c.projects[j].prefix != c.projects[i].prefix
  }

  lemma {:induction false} ProjectProblemsEmptyIff(c: Config, i: nat)
    requires i < |c.projects|
    ensures ProjectProblems(c, i) == [] && RepoProblems(c, i) == [] <==> ProjectClean(c, i)
  {
  }

  lemma {:induction false} ProjectsSoundIff(c: Config)
    ensures Flatten(ProjectSection(c)) == [] && Flatten(RepoSection(c)) == [] <==> ProjectsSound(c)
  {
    var projects, repos := ProjectSection(c), RepoSection(c);
    FlattenEmptyIff(projects);
    FlattenEmptyIff(repos);
    forall i | 0 <= i < |c.projects|
      ensures projects[i] == [] && repos[i] == [] <==> ProjectClean(c, i)
    {
      ProjectProblemsEmptyIff(c, i);
    }
    AllClean(c);
  }

  lemma {:induction false} AllClean(c: Config)
    ensures (forall i :: 0 <= i < |c.projects| ==> ProjectClean(c, i)) <==> ProjectsSound(c)
  {
    if forall i :: 0 <= i < |c.projects| ==> ProjectClean(c, i) {
      forall i | 0 <= i < |c.projects| ensures ProjectSound(c, c.projects[i]) {
        assert ProjectClean(c, i);
      }
      forall i, j | 0 <= i < j < |c.projects|
        ensures c.projects[i].name != c.projects[j].name && c.projects[i].prefix != c.projects[j].prefix
      {
        assert ProjectClean(c, j);
      }
    }
    if ProjectsSound(c) {
      forall i | 0 <= i < |c.projects| ensures ProjectClean(c, i) {
        assert ProjectSound(c, c.projects[i]);
      }
    }
  }

  ghost predicate AgentClean(c: Config, i: nat)
    requires i < |c.agents|
  {
    && c.agents[i].name != "" && !UnknownRuntime(c, c.agents[i].runtime)
    && forall j :: 0 <= j < i ==>
         && c.agents[j].name != c.agents[i].name
         && (c.agents[i].prefix != "" ==> c.agents[j].prefix != c.agents[i].prefix)
  }

  lemma {:induction false} AgentProblemsEmptyIff(c: Config, i: nat)
    requires i < |c.agents|
    ensures AgentProblems(c, i) == [] <==> AgentClean(c, i)
  {
  }

  lemma {:induction false} AllAgentsClean(c: Config)
    requires c.agents != [] ==> Orchestrated(c)
    ensures (forall i :: 0 <= i < |c.agents| ==> AgentClean(c, i)) <==> AgentsSound(c)
  {
    if forall i :: 0 <= i < |c.agents| ==> AgentClean(c, i) {
      forall i | 0 <= i < |c.agents| ensures c.agents[i].name != "" && !UnknownRuntime(c, c.agents[i].runtime) {
        assert AgentClean(c, i);
      }
      forall i, j | 0 <= i < j < |c.agents|
        ensures c.agents[i].name != c.agents[j].name
        ensures c.agents[j].prefix != "" ==> c.agents[i].prefix != c.agents[j].prefix
      {
        assert AgentClean(c, j);
      }
    }
    if AgentsSound(c) {
      forall i | 0 <= i < |c.agents| ensures AgentClean(c, i) {
      }
    }
  }

  lemma {:induction false} AgentsSoundIff(c: Config)
    ensures Flatten(AgentSection(c)) == [] && (c.agents != [] ==> Orchestrated(c)) <==> AgentsSound(c)
  {
    var agents := AgentSection(c);
    FlattenEmptyIff(agents);
    forall i | 0 <= i < |c.agents| ensures agents[i] == [] <==> AgentClean(c, i) {
      AgentProblemsEmptyIff(c, i);
    }
    if c.agents != [] ==> Orchestrated(c) {
      AllAgentsClean(c);
    }
  }

  lemma {:induction false} PresetsSoundIff(c: Config, order: seq<string>)
    requires forall name :: name in order <==> name in c.presets
    ensures Flatten(PresetSection(c, order)) == [] <==>
              forall name :: name in c.presets ==> c.presets[name].provider in c.providers
  {
    var presets := PresetSection(c, order);
    FlattenEmptyIff(presets);
    if Flatten(presets) == [] {
      forall name | name in c.presets ensures c.presets[name].provider in c.providers {
        var i :| 0 <= i < |order| && order[i] == name;
        assert presets[i] == [];
      }
    }
  }

  /** Validation is silent exactly on sound configs, in whatever order presets are visited. */
  lemma {:induction false} SilentIffSound(c: Config, order: seq<string>)
    requires forall name :: name in order <==> name in c.presets
    ensures Problems(c, order) == [] <==> Sound(c)
  {
    ProjectsSoundIff(c);
    AgentsSoundIff(c);
    PresetsSoundIff(c, order);
  }

  // ---------------------------------------------------------------------------------------
  // What each problem means

  predicate Unresolved(c: Config, runtime: string) {
    runtime !in c.presets && BuiltIn(runtime).None?
  }

  /** When a problem is there, told from the config alone. */
  ghost predicate Applies(c: Config, p: Problem) {
    match p
    case EmptySystemName => c.name == ""
    case NoOrchestrator => c.agents != [] && forall i :: 0 <= i < |c.agents| ==> c.agents[i].role != "orchestrator"
    case UnknownDefaultRuntime(r) => c.defaultRuntime == Some(r) && Unresolved(c, r)
    case UnconfiguredProvider(name) => name in c.presets && c.presets[name].provider !in c.providers
    case WeightsOff => !(-0.01 <= c.vectorWeight + c.keywordWeight - 1.0 <= 0.01)
    case OverlapTooLarge => c.chunkOverlap >= c.chunkSize
    case BudgetNotPositive => c.dailyBudget <= 0.0
    case EmptyAgentName => SomeAgent(c, p)
    case DuplicateAgent(_) => SomeAgent(c, p)
    case DuplicateAgentPrefix(_) => SomeAgent(c, p)
    case UnknownAgentRuntime(_, _) => SomeAgent(c, p)
    case _ => SomeProject(c, p)
  }

  /** When a problem is there because of project `i`. */
  ghost predicate ProjectApplies(c: Config, i: nat, p: Problem)
    requires i < |c.projects|
  {
    var d := c.projects[i];
    match p
    case EmptyProjectName => d.name == ""
    case EmptyPrefix(n) => d.name == n && d.prefix == ""
    case DuplicateProject(n) => d.name == n && exists j :: 0 <= j < i && c.projects[j].name == n
    case DuplicatePrefix(x) => d.prefix == x && exists j :: 0 <= j < i && c.projects[j].prefix == x
    case ZeroTimeout(n) => d.name == n && d.timeoutSecs == 0
    case ZeroWorkers(n) => d.name == n && d.maxWorkers == 0
    case UnknownProjectRuntime(n, r) => d.name == n && d.runtime == Some(r) && Unresolved(c, r)
    case UnknownRepo(n, repo) =>
      && d.name == n && d.repo == repo && repo !in c.repos
      && (repo == "" || (repo[0] != '/' && repo[0] != '~'))
    case _ => false
  }

  /** When a problem is there because of agent `i`. */
  ghost predicate AgentApplies(c: Config, i: nat, p: Problem)
    requires i < |c.agents|
  {
    var a := c.agents[i];
    match p
    case EmptyAgentName => a.name == ""
    case DuplicateAgent(n) => a.name == n && exists j :: 0 <= j < i && c.agents[j].name == n
    case DuplicateAgentPrefix(x) => x != "" && a.prefix == x && exists j :: 0 <= j < i && c.agents[j].prefix == x
    case UnknownAgentRuntime(n, r) => a.name == n && a.runtime == Some(r) && Unresolved(c, r)
    case _ => false
  }

  ghost predicate SomeProject(c: Config, p: Problem) {
    exists i :: 0 <= i < |c.projects| && ProjectApplies(c, i, p)
  }

  ghost predicate SomeAgent(c: Config, p: Problem) {
    exists i :: 0 <= i < |c.agents| && AgentApplies(c, i, p)
  }

  lemma {:induction false} InFlatten(reports: seq<seq<Problem>>, p: Problem)
    ensures p in Flatten(reports) <==> exists i :: 0 <= i < |reports| && p in reports[i]
  {
    if reports != [] {
      var init, last := reports[..|reports| - 1], reports[|reports| - 1];
      InFlatten(init, p);
      assert forall i :: 0 <= i < |init| ==> init[i] == reports[i];
      assert reports[|reports| - 1] == last;
      assert p in Flatten(reports) <==> p in Flatten(init) || p in last;
    }
  }

  lemma {:induction false} AgentReports(c: Config, i: nat, p: Problem)
    requires i < |c.agents|
    ensures p in AgentProblems(c, i) <==> AgentApplies(c, i, p)
  {
  }

  lemma {:induction false} ProjectReports(c: Config, i: nat, p: Problem)
    requires i < |c.projects|
    ensures p in ProjectProblems(c, i) <==> !p.UnknownRepo? && ProjectApplies(c, i, p)
  {
    var d := c.projects[i];
    InProblemsOf(d, NameTaken(c, i), PrefixTaken(c, i), UnknownRuntime(c, d.runtime), p);
  }

  lemma {:induction false} InProblemsOf(d: Project, nameTaken: bool, prefixTaken: bool, unknownRuntime: bool, p: Problem)
    ensures p in ProblemsOf(d, nameTaken, prefixTaken, unknownRuntime) <==>
              || (p == EmptyProjectName && d.name == "")
              || (p == EmptyPrefix(d.name) && d.prefix == "")
              || (p == DuplicateProject(d.name) && nameTaken)
              || (p == DuplicatePrefix(d.prefix) && prefixTaken)
              || (p == ZeroTimeout(d.name) && d.timeoutSecs == 0)
              || (p == ZeroWorkers(d.name) && d.maxWorkers == 0)
              || (unknownRuntime && d.runtime.Some? && p == UnknownProjectRuntime(d.name, d.runtime.value))
  {
  }

  lemma {:induction false} RepoReports(c: Config, i: nat, p: Problem)
    requires i < |c.projects|
    ensures p in RepoProblems(c, i) <==> p.UnknownRepo? && ProjectApplies(c, i, p)
  {
  }

  lemma {:induction false} InProjects(c: Config, p: Problem)
    ensures p in Flatten(ProjectSection(c)) <==>
              !p.UnknownRepo? && SomeProject(c, p)
    ensures p in Flatten(RepoSection(c)) <==>
              p.UnknownRepo? && SomeProject(c, p)
  {
    var projects, repos := ProjectSection(c), RepoSection(c);
    InFlatten(projects, p);
    InFlatten(repos, p);
    forall i | 0 <= i < |c.projects|
      ensures p in projects[i] <==> !p.UnknownRepo? && ProjectApplies(c, i, p)
      ensures p in repos[i] <==> p.UnknownRepo? && ProjectApplies(c, i, p)
    {
      ProjectReports(c, i, p);
      RepoReports(c, i, p);
    }
  }

  lemma {:induction false} InAgents(c: Config, p: Problem)
    ensures p in Flatten(AgentSection(c)) <==> SomeAgent(c, p)
  {
    var agents := AgentSection(c);
    InFlatten(agents, p);
    forall i | 0 <= i < |c.agents| ensures p in agents[i] <==> AgentApplies(c, i, p) {
      AgentReports(c, i, p);
    }
  }

  lemma {:induction false} InPresets(c: Config, order: seq<string>, p: Problem)
    requires forall name :: name in order <==> name in c.presets
    ensures p in Flatten(PresetSection(c, order)) <==>
              p.UnconfiguredProvider? && p.preset in c.presets && c.presets[p.preset].provider !in c.providers
  {
    var presets := PresetSection(c, order);
    InFlatten(presets, p);
    forall i | 0 <= i < |order|
      ensures p in presets[i] <==> p == UnconfiguredProvider(order[i]) && c.presets[order[i]].provider !in c.providers
    {
    }
    if p.UnconfiguredProvider? && p.preset in c.presets {
      var i :| 0 <= i < |order| && order[i] == p.preset;
      assert p in presets[i] <==> c.presets[p.preset].provider !in c.providers;
    }
  }

  /** The parts of the report that are not about one item of a list. */
  function Singles(c: Config): seq<seq<Problem>> {
    [When(c.name == "", EmptySystemName),
     When(c.agents != [] && !Orchestrated(c), NoOrchestrator),
     if UnknownRuntime(c, c.defaultRuntime) then [UnknownDefaultRuntime(c.defaultRuntime.value)] else [],
     When(WeightsAreOff(c), WeightsOff),
     When(c.chunkOverlap >= c.chunkSize, OverlapTooLarge),
     When(c.dailyBudget <= 0.0, BudgetNotPositive)]
  }

  predicate IsSingle(p: Problem) {
    || p.EmptySystemName? || p.NoOrchestrator? || p.UnknownDefaultRuntime?
    || p.WeightsOff? || p.OverlapTooLarge? || p.BudgetNotPositive?
  }

  lemma {:induction false} InSingles(c: Config, p: Problem)
    ensures var s := Singles(c);
            p in s[0] || p in s[1] || p in s[2] || p in s[3] || p in s[4] || p in s[5] <==> IsSingle(p) && Applies(c, p)
  {
  }

  lemma {:induction false} InProblems(c: Config, order: seq<string>, p: Problem)
    requires forall i :: 0 <= i < |order| ==> order[i] in c.presets
    ensures var s := Singles(c);
            p in Problems(c, order) <==>
              || p in s[0] || p in Flatten(ProjectSection(c)) || p in s[1] || p in Flatten(AgentSection(c)) || p in s[2]
              || p in Flatten(PresetSection(c, order)) || p in Flatten(RepoSection(c)) || p in s[3] || p in s[4] || p in s[5]
  {
  }

  /** A problem is reported exactly when it is there, in whatever order presets are visited. */
  lemma {:induction false} ReportedIff(c: Config, order: seq<string>, p: Problem)
    requires forall name :: name in order <==> name in c.presets
    ensures p in Problems(c, order) <==> Applies(c, p)
  {
    InProblems(c, order, p);
    InSingles(c, p);
    InProjects(c, p);
    InAgents(c, p);
    InPresets(c, order, p);
    OwnProblems(c, p);
  }

  predicate IsAgentProblem(p: Problem) {
    p.EmptyAgentName? || p.DuplicateAgent? || p.DuplicateAgentPrefix? || p.UnknownAgentRuntime?
  }

  predicate IsProjectProblem(p: Problem) {
    || p.EmptyProjectName? || p.EmptyPrefix? || p.DuplicateProject? || p.DuplicatePrefix?
    || p.ZeroTimeout? || p.ZeroWorkers? || p.UnknownProjectRuntime? || p.UnknownRepo?
  }

  lemma {:induction false} OwnProblems(c: Config, p: Problem)
    ensures SomeAgent(c, p) ==> IsAgentProblem(p)
    ensures SomeProject(c, p) ==> IsProjectProblem(p)
    ensures Applies(c, p) <==>
              || (IsSingle(p) && Applies(c, p)) || SomeAgent(c, p) || SomeProject(c, p)
              || (p.UnconfiguredProvider? && p.preset in c.presets && c.presets[p.preset].provider !in c.providers)
  {
  }

  // ---------------------------------------------------------------------------------------
  // The order of the report

  /** The part of the config a problem is about, in the order the parts are looked at. */
  function PartOf(p: Problem): nat {
    match p
    case EmptySystemName => 0
    case NoOrchestrator => 2
    case EmptyAgentName => 3
    case DuplicateAgent(_) => 3
    case DuplicateAgentPrefix(_) => 3
    case UnknownAgentRuntime(_, _) => 3
    case UnknownDefaultRuntime(_) => 4
    case UnconfiguredProvider(_) => 5
    case UnknownRepo(_, _) => 6
    case WeightsOff => 7
    case OverlapTooLarge => 8
    case BudgetNotPositive => 9
    case _ => 1
  }

  ghost predicate InOrder(ps: seq<Problem>, upTo: nat) {
    && (forall i, j :: 0 <= i < j < |ps| ==> PartOf(ps[i]) <= PartOf(ps[j]))
    && (forall i :: 0 <= i < |ps| ==> PartOf(ps[i]) < upTo)
  }

  lemma {:induction false} NextPart(ps: seq<Problem>, more: seq<Problem>, k: nat)
    requires InOrder(ps, k) && forall p :: p in more ==> PartOf(p) == k
    ensures InOrder(ps + more, k + 1)
  {
    var all := ps + more;
    forall i | 0 <= i < |all| ensures PartOf(all[i]) < k + 1 && (i >= |ps| ==> PartOf(all[i]) == k) {
      if i >= |ps| {
        assert all[i] == more[i - |ps|] && all[i] in more;
      } else {
        assert all[i] == ps[i];
      }
    }
  }

  ghost predicate AllIn(ps: seq<Problem>, k: nat) {
    forall p :: p in ps ==> PartOf(p) == k
  }

  lemma {:induction false} FiveInOrder(
    ps: seq<Problem>, k: nat, a: seq<Problem>, b: seq<Problem>, c: seq<Problem>, d: seq<Problem>, e: seq<Problem>)
    requires InOrder(ps, k)
    requires AllIn(a, k) && AllIn(b, k + 1) && AllIn(c, k + 2) && AllIn(d, k + 3) && AllIn(e, k + 4)
    ensures InOrder(ps + a + b + c + d + e, k + 5)
  {
    NextPart(ps, a, k);
    NextPart(ps + a, b, k + 1);
    NextPart(ps + a + b, c, k + 2);
    NextPart(ps + a + b + c, d, k + 3);
    NextPart(ps + a + b + c + d, e, k + 4);
  }

  lemma {:induction false} SinglesParts(c: Config, p: Problem)
    ensures var s := Singles(c);
            && (p in s[0] ==> PartOf(p) == 0) && (p in s[1] ==> PartOf(p) == 2) && (p in s[2] ==> PartOf(p) == 4)
            && (p in s[3] ==> PartOf(p) == 7) && (p in s[4] ==> PartOf(p) == 8) && (p in s[5] ==> PartOf(p) == 9)
  {
  }

  lemma {:induction false} SectionParts(c: Config, order: seq<string>, p: Problem)
    requires forall name :: name in order <==> name in c.presets
    ensures p in Flatten(ProjectSection(c)) ==> PartOf(p) == 1
    ensures p in Flatten(AgentSection(c)) ==> PartOf(p) == 3
    ensures p in Flatten(PresetSection(c, order)) ==> PartOf(p) == 5
    ensures p in Flatten(RepoSection(c)) ==> PartOf(p) == 6
  {
    InProjects(c, p);
    InAgents(c, p);
    InPresets(c, order, p);
    OwnProblems(c, p);
  }

  lemma {:induction false} AllParts(c: Config, order: seq<string>)
    requires forall name :: name in order <==> name in c.presets
    ensures var s := Singles(c);
            && AllIn(s[0], 0) && AllIn(Flatten(ProjectSection(c)), 1) && AllIn(s[1], 2)
            && AllIn(Flatten(AgentSection(c)), 3) && AllIn(s[2], 4) && AllIn(Flatten(PresetSection(c, order)), 5)
            && AllIn(Flatten(RepoSection(c)), 6) && AllIn(s[3], 7) && AllIn(s[4], 8) && AllIn(s[5], 9)
  {
    forall p: Problem ensures var s := Singles(c);
            && (p in s[0] ==> PartOf(p) == 0) && (p in s[1] ==> PartOf(p) == 2) && (p in s[2] ==> PartOf(p) == 4)
            && (p in s[3] ==> PartOf(p) == 7) && (p in s[4] ==> PartOf(p) == 8) && (p in s[5] ==> PartOf(p) == 9)
    {
      SinglesParts(c, p);
    }
    forall p: Problem
      ensures p in Flatten(ProjectSection(c)) ==> PartOf(p) == 1
      ensures p in Flatten(AgentSection(c)) ==> PartOf(p) == 3
      ensures p in Flatten(PresetSection(c, order)) ==> PartOf(p) == 5
      ensures p in Flatten(RepoSection(c)) ==> PartOf(p) == 6
    {
      SectionParts(c, order, p);
    }
  }

  /** The report goes through the config part by part. */
  lemma {:induction false} ReportIsInOrder(c: Config, order: seq<string>)
    requires forall name :: name in order <==> name in c.presets
    ensures var ps := Problems(c, order);
            forall i, j :: 0 <= i < j < |ps| ==> PartOf(ps[i]) <= PartOf(ps[j])
  {
    var s := Singles(c);
    AllParts(c, order);
    TenInOrder(s[0], Flatten(ProjectSection(c)), s[1], Flatten(AgentSection(c)), s[2],
               Flatten(PresetSection(c, order)), Flatten(RepoSection(c)), s[3], s[4], s[5]);
  }

  lemma {:induction false} TenInOrder(
    a: seq<Problem>, b: seq<Problem>, c: seq<Problem>, d: seq<Problem>, e: seq<Problem>,
    f: seq<Problem>, g: seq<Problem>, h: seq<Problem>, i: seq<Problem>, j: seq<Problem>)
    requires AllIn(a, 0) && AllIn(b, 1) && AllIn(c, 2) && AllIn(d, 3) && AllIn(e, 4)
    requires AllIn(f, 5) && AllIn(g, 6) && AllIn(h, 7) && AllIn(i, 8) && AllIn(j, 9)
    ensures InOrder(a + b + c + d + e + f + g + h + i + j, 10)
  {
    FiveInOrder([], 0, a, b, c, d, e);
    assert [] + a == a;
    FiveInOrder(a + b + c + d + e, 5, f, g, h, i, j);
  }

  // ---------------------------------------------------------------------------------------
  // What later lookups may rely on

  lemma {:induction false} ProjectNamedIsIt(ps: seq<Project>, i: nat)
    requires i < |ps| && forall j :: 0 <= j < i ==> ps[j].name != ps[i].name
    ensures ProjectNamed(ps, ps[i].name) == Some(ps[i])
  {
    if i > 0 {
      ProjectNamedIsIt(ps[1..], i - 1);
    }
  }

  /** A name no project has runs on the default runtime, as an agent unless the preset says
      otherwise. */
  lemma {:induction false} UnknownProjectRuns(c: Config, name: string)
    requires forall i :: 0 <= i < |c.projects| ==> c.projects[i].name != name
    ensures var r := RuntimeForProject(c, name);
            && r.mode.Some?
            && (c.defaultRuntime.Some? && c.defaultRuntime.value in c.presets ==>
                  var preset := c.presets[c.defaultRuntime.value];
                  && r.provider == preset.provider && r.model == preset.model
                  && (preset.mode.Some? ==> r.mode == preset.mode) && (preset.mode.None? ==> r.mode == Some(Agent)))
            && (c.defaultRuntime == None && c.providers == {} ==> r == Preset(OpenRouter, Some(Agent), None))
  {
    NoSuchProject(c.projects, name);
  }

  lemma {:induction false} NoSuchProject(ps: seq<Project>, name: string)
    requires forall i :: 0 <= i < |ps| ==> ps[i].name != name
    ensures ProjectNamed(ps, name) == None
  {
    if ps != [] {
      NoSuchProject(ps[1..], name);
    }
  }

  /** Looking up `p` by its name finds `p`; its runtime is the preset that it (or else the config's
      default) names, with a mode filled in, and the provider fallback only when none is named. */
  predicate LookupsWork(c: Config, p: Project) {
    var named := if p.runtime.Some? then p.runtime else c.defaultRuntime;
    var runtime := RuntimeForProject(c, p.name);
    && ProjectNamed(c.projects, p.name) == Some(p)
    && runtime.mode.Some?
    && (named.Some? ==>
          && PresetNamed(c, named.value).Some?
          && var preset := PresetNamed(c, named.value).value;
          && runtime.provider == preset.provider && runtime.model == preset.model
          && runtime.mode == (if preset.mode.Some? then preset.mode else Some(p.mode)))
    && (named.None? ==> runtime == ProviderFallback(c, p.mode))
  }

  /** In a validated config, looking up a project's name finds that very project, and its runtime
      is the preset it names (or the default names) with a mode filled in; the provider fallback
      is reached only when neither names one. */
  lemma {:induction false} ValidatedLookups(c: Config, order: seq<string>, i: nat)
    requires forall name :: name in order <==> name in c.presets
    requires Problems(c, order) == [] && i < |c.projects|
    ensures LookupsWork(c, c.projects[i])
  {
    SilentIffSound(c, order);
    SoundLookups(c, i);
  }

  lemma {:induction false} SoundLookups(c: Config, i: nat)
    requires Sound(c) && i < |c.projects|
    ensures LookupsWork(c, c.projects[i])
  {
    SoundProject(c, i);
    ProjectNamedIsIt(c.projects, i);
  }

  /** What soundness says of one project. */
  lemma {:induction false} SoundProject(c: Config, i: nat)
    requires Sound(c) && i < |c.projects|
    ensures !UnknownRuntime(c, c.projects[i].runtime) && !UnknownRuntime(c, c.defaultRuntime)
    ensures forall j :: 0 <= j < i ==> c.projects[j].name != c.projects[i].name
  {
    assert ProjectSound(c, c.projects[i]);
  }

  /** Whether the provider of a runtime is configured, told from its name alone: a preset of the
      config always, a built-in preset when its provider happens to be, and the fallback when any
      provider is. */
  predicate ProviderReady(c: Config, named: Option<string>) {
    match named
    case Some(n) => n in c.presets || (BuiltIn(n).Some? && BuiltIn(n).value.provider in c.providers)
    case None => c.providers != {}
  }

  /** Providers are preferred in a fixed order. */
  lemma {:induction false} DefaultProviderIff(c: Config)
    ensures DefaultProvider(c) == None <==> c.providers == {}
    ensures DefaultProvider(c) == Some(OpenRouter) <==> OpenRouter in c.providers
    ensures DefaultProvider(c) == Some(Anthropic) <==> Anthropic in c.providers && OpenRouter !in c.providers
    ensures DefaultProvider(c) == Some(Ollama) <==> Ollama in c.providers && OpenRouter !in c.providers && Anthropic !in c.providers
  {
    if c.providers != {} {
      var p :| p in c.providers;
      assert p == OpenRouter || p == Anthropic || p == Ollama;
    }
  }

  function ProviderName(p: Provider): string {
    match p
    case OpenRouter => "openrouter"
    case Anthropic => "anthropic"
    case Ollama => "ollama"
  }

  /** The built-in presets: every provider under its own name, with the native runtime behind both
      suffixes; and no others. */
  lemma {:induction false} BuiltInIff(name: string, preset: Preset)
    ensures BuiltIn(name) == Some(preset) <==>
              && preset.mode == Some(Agent) && preset.model == None
              && (name == ProviderName(preset.provider) + "_agent" || name == ProviderName(preset.provider) + "_claude_code")
  {
    assert "openrouter" + "_agent" == "openrouter_agent" && "openrouter" + "_claude_code" == "openrouter_claude_code";
    assert "anthropic" + "_agent" == "anthropic_agent" && "anthropic" + "_claude_code" == "anthropic_claude_code";
    assert "ollama" + "_agent" == "ollama_agent" && "ollama" + "_claude_code" == "ollama_claude_code";
    assert "openrouter_agent"[1] == 'p' && "anthropic_agent"[1] == 'n' && "ollama_agent"[1] == 'l';
    assert "openrouter_claude_code"[1] == 'p' && "anthropic_claude_code"[1] == 'n' && "ollama_claude_code"[1] == 'l';
  }

  lemma {:induction false} FallbackReadyIff(c: Config, mode: Mode)
    ensures ProviderFallback(c, mode).provider in c.providers <==> c.providers != {}
  {
    if c.providers != {} {
      var p :| p in c.providers;
      assert p == OpenRouter || p == Anthropic || p == Ollama;
    }
  }

  /** A validated project runs on a configured provider exactly when its runtime is ready;
      validation looks neither at built-in presets nor at the fallback. */
  lemma {:induction false} RuntimeProviderConfiguredIff(c: Config, order: seq<string>, i: nat)
    requires forall n :: n in order <==> n in c.presets
    requires Problems(c, order) == [] && i < |c.projects|
    ensures var p := c.projects[i];
            RuntimeForProject(c, p.name).provider in c.providers <==>
              ProviderReady(c, if p.runtime.Some? then p.runtime else c.defaultRuntime)
  {
    SilentIffSound(c, order);
    SoundRuntimeIff(c, i);
  }

  lemma {:induction false} SoundRuntimeIff(c: Config, i: nat)
    requires Sound(c) && i < |c.projects|
    ensures var p := c.projects[i];
            RuntimeForProject(c, p.name).provider in c.providers <==>
              ProviderReady(c, if p.runtime.Some? then p.runtime else c.defaultRuntime)
  {
    SoundLookups(c, i);
    FallbackReadyIff(c, c.projects[i].mode);
  }

  // Both ways to fail, on configs that validate cleanly.

  function OneProject(runtime: Option<string>): Config {
    Config("aeqi", None, [Project("web", "w", "/src/web", runtime, Agent, 60, 1)], [],
           map[], {}, {}, 0.7, 0.3, 512, 64, 5.0)
  }

  lemma {:induction false} OneProjectIsSilent(runtime: Option<string>)
    requires runtime == None || runtime == Some("anthropic_agent")
    ensures Problems(OneProject(runtime), []) == []
  {
    var c := OneProject(runtime);
    assert c.projects[0].name[0] == 'w' && c.projects[0].repo[..1] == "/";
    assert Sound(c);
    SilentIffSound(c, []);
  }

  /** A built-in preset whose provider is not configured. */
  lemma {:induction false} BuiltInWithoutProvider()
    ensures var c := OneProject(Some("anthropic_agent"));
            Problems(c, []) == [] && RuntimeForProject(c, "web").provider == Anthropic && Anthropic !in c.providers
  {
    OneProjectIsSilent(Some("anthropic_agent"));
  }

  /** No runtime named and no provider configured: the fallback is one that is not there. */
  lemma {:induction false} FallbackWithoutProvider()
    ensures var c := OneProject(None);
            Problems(c, []) == [] && RuntimeForProject(c, "web").provider == OpenRouter && OpenRouter !in c.providers
  {
    OneProjectIsSilent(None);
  }
}
