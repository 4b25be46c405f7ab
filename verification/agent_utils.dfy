/** The pure functions of packages/agent/src/utils.ts over the agent and model
    vocabularies, and the consistency facts that tie them together. The
    `never`-typed fallback branches of the source are absent: every match below
    is exhaustive over a closed datatype. */
module AgentUtils {
  import opened Wrappers
  import opened AgentTypes
  import opened Seqs

  const DefaultAgent: Agent := ClaudeCode

  /** `ensureAgent`: a missing agent becomes the default agent */
  function EnsureAgent(agent: Option<Agent>): (r: Agent)
    ensures agent.None? ==> r == ClaudeCode
    ensures agent.Some? ==> r == agent.value
  {
    match agent
    case None => DefaultAgent
    case Some(a) => a
  }

  /** `modelToAgent`: each model runs under the agent of its family, and a
      missing model under the default agent */
  function ModelToAgent(model: Option<Model>): (r: Agent)
    ensures model.None? ==> r == ClaudeCode
    ensures model.Some? ==> r == FamilyAgent(Describe(model.value))
  {
    match model
    case None => DefaultAgent
    case Some(AmpModel) => Amp
    case Some(Opus) | Some(Haiku) | Some(Sonnet) => ClaudeCode
    case Some(_) => Codex
  }

  /** Whether a numeric-or-"latest" agent version is at least `n` */
  predicate VersionAtLeast(v: AgentVersion, n: int) {
    v.Latest? || v.n >= n
  }

  const CodexBaseModels: seq<Model> := [
    Gpt5CodexLow, Gpt5CodexMedium, Gpt5CodexHigh, Gpt5Low, Gpt5, Gpt5High
  ]

  const CodexV2Models: seq<Model> := [
    Gpt51CodexMaxLow, Gpt51CodexMax, Gpt51CodexMaxHigh, Gpt51CodexMaxXHigh,
    Gpt51CodexLow, Gpt51CodexMedium, Gpt51CodexHigh,
    Gpt51Low, Gpt51, Gpt51High
  ]

  const CodexV3Models: seq<Model> := [
    Gpt52CodexLow, Gpt52CodexMedium, Gpt52CodexHigh, Gpt52CodexXHigh,
    Gpt52Low, Gpt52, Gpt52High, Gpt52XHigh
  ]

  /** The models the codex agent offers: the base list, with the version-2
      models put in front of it from version 2 on, and the version-3 models put
      in front of that from version 3 on */
  function CodexModels(v: AgentVersion): (r: seq<Model>)
    ensures |r| == if VersionAtLeast(v, 3) then 24 else if VersionAtLeast(v, 2) then 16 else 6
  {
    var models := CodexBaseModels;
    var models := if VersionAtLeast(v, 2) then CodexV2Models + models else models;
    if VersionAtLeast(v, 3) then CodexV3Models + models else models
  }

  /** Each codex list holds exactly the OpenAI models of one generation */
  lemma CodexGenerationLists(m: Model)
    ensures m in CodexBaseModels <==> Describe(m).GptFamily? && Describe(m).gen == G5
    ensures m in CodexV2Models <==> Describe(m).GptFamily? && Describe(m).gen == G51
    ensures m in CodexV3Models <==> Describe(m).GptFamily? && Describe(m).gen == G52
  {
    CodexBaseList(m);
    CodexV2List(m);
    CodexV3List(m);
  }

  lemma CodexBaseList(m: Model)
    ensures m in CodexBaseModels <==> Describe(m).GptFamily? && Describe(m).gen == G5
  {
  }

  lemma CodexV2List(m: Model)
    ensures m in CodexV2Models <==> Describe(m).GptFamily? && Describe(m).gen == G51
  {
  }

  lemma CodexV3List(m: Model)
    ensures m in CodexV3Models <==> Describe(m).GptFamily? && Describe(m).gen == G52
  {
  }

  /** The codex list at a version holds exactly the generation-5 OpenAI
      models, the generation-5.1 ones from version 2 on, and the generation-5.2
      ones from version 3 on */
  lemma CodexModelsByGeneration(v: AgentVersion, m: Model)
    ensures m in CodexModels(v) <==>
      && Describe(m).GptFamily?
      && (|| Describe(m).gen == G5
          || (Describe(m).gen == G51 && VersionAtLeast(v, 2))
          || (Describe(m).gen == G52 && VersionAtLeast(v, 3)))
  {
    CodexGenerationLists(m);
    if VersionAtLeast(v, 3) {
      assert CodexModels(v) == CodexV3Models + (CodexV2Models + CodexBaseModels);
    } else if VersionAtLeast(v, 2) {
      assert CodexModels(v) == CodexV2Models + CodexBaseModels;
    } else {
      assert CodexModels(v) == CodexBaseModels;
    }
  }

  /** Every model the codex agent offers is an OpenAI model */
  lemma CodexModelsAreOpenAi(v: AgentVersion)
    ensures forall m :: m in CodexModels(v) ==> Describe(m).GptFamily?
  {
    forall m | m in CodexModels(v) ensures Describe(m).GptFamily? {
      CodexModelsByGeneration(v, m);
    }
  }

  /** `agentToModels`: a non-empty list of models, each of which runs under the
      requested agent (the default agent when none is given) */
  function AgentToModels(agent: Option<Agent>, v: AgentVersion): (r: seq<Model>)
    ensures r != []
    ensures forall m :: m in r ==> ModelToAgent(Some(m)) == EnsureAgent(agent)
  {
    match EnsureAgent(agent)
    case ClaudeCode => [Haiku, Sonnet, Opus]
    case Amp => [AmpModel]
    case Codex => CodexModelsAreOpenAi(v); CodexModels(v)
  }

  /** `getDefaultModelForAgent`: the default is one of the agent's own models
      at that version, and is enabled by default there */
  function DefaultModelForAgent(agent: Agent, v: AgentVersion): (r: Model)
    ensures r in AgentToModels(Some(agent), v)
    ensures IsModelEnabledByDefault(r, v)
    ensures ModelToAgent(Some(r)) == agent
  {
    match agent
    case ClaudeCode => Sonnet
    case Codex => if VersionAtLeast(v, 2) then Gpt51CodexMedium else Gpt5CodexMedium
    case Amp => AmpModel
  }

  /** `isModelEnabledByDefault`: plain (non-codex) OpenAI models are off, the
      generation-5 codex models are on only at a numeric version below 2, and
      every other model is on */
  function IsModelEnabledByDefault(m: Model, v: AgentVersion): (r: bool)
    ensures r <==>
      match Describe(m)
      case GptFamily(_, Plain, _) => false
      case GptFamily(G5, CodexLine, _) => v.Numeric? && v.n < 2
      case _ => true
  {
    match m
    case Gpt5 | Gpt5Low | Gpt5High | Gpt51 | Gpt51Low | Gpt51High
       | Gpt52 | Gpt52Low | Gpt52High | Gpt52XHigh => false
    case Gpt5CodexLow | Gpt5CodexMedium | Gpt5CodexHigh => !v.Latest? && v.n < 2
    case _ => true
  }

  /** `isPlanModeSupported`: only Claude models support plan mode, and a missing
      model counts as the default (Claude) agent's */
  function IsPlanModeSupported(model: Option<Model>): (r: bool)
    ensures r <==> model.None? || Describe(model.value).ClaudeFamily?
  {
    match ModelToAgent(model)
    case ClaudeCode => true
    case Codex => false
    case Amp => false
  }

  /** `modelRequiresChatGptOAuth` */
  function ModelRequiresChatGptOAuth(model: Option<Model>): (r: bool)
    ensures r <==> (model.Some? && Describe(model.value) in
      {GptFamily(G52, CodexLine, Low), GptFamily(G52, CodexLine, Medium),
       GptFamily(G52, CodexLine, High), GptFamily(G52, CodexLine, XHigh)})
  {
    match model
    case Some(Gpt52CodexLow) | Some(Gpt52CodexMedium)
       | Some(Gpt52CodexHigh) | Some(Gpt52CodexXHigh) => true
    case _ => false
  }

  // ---------------------------------------------------------------------------
  // Parsing external model names

  /** The alias names of `AIModelExternalSchema`, read from a string: a string
      is recognised exactly when it is an alias's name */
  function ParseAlias(s: string): (r: Option<Alias>)
    ensures r.Some? ==> AliasName(r.value) == s
    ensures r.None? ==> forall a: Alias :: AliasName(a) != s
  {
    match s
    case "gpt-5-medium" => Some(Gpt5Medium)
    case "gpt-5.1-medium" => Some(Gpt51Medium)
    case "gpt-5.2-medium" => Some(Gpt52Medium)
    case "gpt-5-codex" => Some(Gpt5Codex)
    case "gpt-5.1-codex" => Some(Gpt51Codex)
    case "gpt-5.1-codex-max-medium" => Some(Gpt51CodexMaxMedium)
    case "gpt-5.2-codex" => Some(Gpt52Codex)
    case _ => None
  }

  /** The canonical model each alias stands for: the medium-effort model of the
      alias's generation and line */
  function AliasTarget(a: Alias): (r: Model)
    ensures Describe(r) == AliasFamily(a)
  {
    match a
    case Gpt5Medium => Gpt5
    case Gpt51Medium => Gpt51
    case Gpt52Medium => Gpt52
    case Gpt51CodexMaxMedium => Gpt51CodexMax
    case Gpt5Codex => Gpt5CodexMedium
    case Gpt51Codex => Gpt51CodexMedium
    case Gpt52Codex => Gpt52CodexMedium
  }

  /** The canonical model an external name denotes */
  function Denotes(x: ExternalModel): Model {
    match x
    case Canonical(m) => m
    case Aliased(a) => AliasTarget(a)
  }

  /** `parseModelOrNull`: an absent or empty name gives nothing, a canonical
      name gives its model, an alias gives the model it stands for, and any
      other string gives nothing */
  function ParseModelOrNull(modelName: Option<string>): (r: Option<Model>)
    ensures modelName.None? || modelName.value == "" ==> r.None?
    ensures r.Some? ==> exists x :: ExternalName(x) == modelName.value && Denotes(x) == r.value
  {
    match modelName
    case None => None
    case Some(s) =>
      if s == "" then None
      else match ParseModelName(s)
        case Some(m) =>
          ParseModelNameSound(s);
          assert ExternalName(Canonical(m)) == s;
          Some(m)
        case None =>
          match ParseAlias(s)
          case Some(a) =>
            assert ExternalName(Aliased(a)) == s;
            Some(AliasTarget(a))
          case None => None
  }

  // ---------------------------------------------------------------------------
  // Model groups filtered by user preferences

  /** `AgentModelGroup`; its label is the agent's display name */
  datatype AgentModelGroup = AgentModelGroup(agent: Agent, name: string, models: seq<Model>)

  function AgentDisplayName(a: Agent): string {
    match a
    case ClaudeCode => "Claude Code"
    case Codex => "OpenAI Codex"
    case Amp => "Amp"
  }

  /** The per-model decision `getAgentModelGroups` filters with */
  function ShowModel(m: Model, prefs: AgentModelPreferences, selected: seq<Model>, version: int): bool {
    if m in selected then true
    else match ModelPreference(prefs, m)
      case Some(b) => b
      case None => IsModelEnabledByDefault(m, Numeric(version))
  }

  /** `getAgentModelGroups`; this entry point only accepts a numeric version.
      The group keeps, in list order, those of the agent's models that are
      selected, or else explicitly enabled, or else, with no preference
      stated, enabled by default */
  function AgentModelGroups(agent: Agent, prefs: AgentModelPreferences, selected: seq<Model>, version: int): (g: AgentModelGroup)
    ensures g.agent == agent
    ensures IsSubsequence(g.models, AgentToModels(Some(agent), Numeric(version)))
    ensures forall m :: m in g.models <==>
      m in AgentToModels(Some(agent), Numeric(version))
      && (m in selected
          || ModelPreference(prefs, m) == Some(true)
          || (ModelPreference(prefs, m).None? && IsModelEnabledByDefault(m, Numeric(version))))
  {
    AgentModelGroup(agent, AgentDisplayName(agent),
      Filter(AgentToModels(Some(agent), Numeric(version)),
             (m: Model) => ShowModel(m, prefs, selected, version)))
  }

  // ---------------------------------------------------------------------------
  // Agent ordering and slash commands

  /** `agentSortOrder` */
  function AgentRank(a: Agent): nat {
    match a
    case ClaudeCode => 0
    case Codex => 1
    case Amp => 2
  }

  /** `sortByAgents`, a comparator: zero only on equal agents, claudeCode
      before every other agent, amp after every other agent */
  function SortByAgents(a: Agent, b: Agent): (r: int)
    ensures r == 0 <==> a == b
    ensures a == ClaudeCode && b != ClaudeCode ==> r < 0
    ensures a == Amp && b != Amp ==> r > 0
  {
    AgentRank(a) - AgentRank(b)
  }

  /** Each agent compares at most equal to the next one */
  ghost predicate SortedByAgents(s: seq<Agent>) {
    forall i :: 0 < i < |s| ==> SortByAgents(s[i - 1], s[i]) <= 0
  }

  /** Inserts `a` into a list sorted by `sortByAgents` */
  function InsertAgent(a: Agent, s: seq<Agent>): (r: seq<Agent>)
    requires SortedByAgents(s)
    ensures SortedByAgents(r)
    ensures multiset(r) == multiset(s) + multiset{a}
    ensures r[0] == a || (s != [] && r[0] == s[0])
  {
    if s == [] then [a]
    else if SortByAgents(a, s[0]) <= 0 then [a] + s
    else
      assert s == [s[0]] + s[1..];
      [s[0]] + InsertAgent(a, s[1..])
  }

  /** `Array.prototype.sort` with `sortByAgents`, as an insertion sort */
  function SortAgents(s: seq<Agent>): (r: seq<Agent>)
    ensures SortedByAgents(r)
    ensures multiset(r) == multiset(s)
  {
    if s == [] then []
    else
      assert s == [s[0]] + s[1..];
      InsertAgent(s[0], SortAgents(s[1..]))
  }

  /** The keys of `agentDisplayNameMap`, in declaration order */
  const AgentDisplayNameKeys: seq<Agent> := [ClaudeCode, Codex, Amp]

  /** `getAllAgentTypes` */
  function AllAgentTypes(): (r: seq<Agent>)
    ensures r == [ClaudeCode, Codex, Amp]
  {
    SortAgents(AgentDisplayNameKeys)
  }

  const UniversalSlashCommands: seq<SlashCommand> := [
    SlashCommand("clear", "Clear conversation history"),
    SlashCommand("compact", "Compact conversation")
  ]

  const ClaudeSlashCommands: seq<SlashCommand> := [
    SlashCommand("init", "Initialize project with CLAUDE.md guide"),
    SlashCommand("pr-comments", "View pull request comments"),
    SlashCommand("review", "Request code review")
  ]

  /** `getAgentSlashCommands`: the universal commands first, three more for
      Claude Code, and no command name twice */
  function AgentSlashCommands(agent: Agent): (r: seq<SlashCommand>)
    ensures |r| == if agent == ClaudeCode then 5 else 2
    ensures r[..|UniversalSlashCommands|] == UniversalSlashCommands
    ensures forall i, j :: 0 <= i < j < |r| ==> r[i].name != r[j].name
  {
    match agent
    case ClaudeCode => UniversalSlashCommands + ClaudeSlashCommands
    case _ => UniversalSlashCommands
  }
}
