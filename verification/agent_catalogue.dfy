/** Cross-function consistency of the agent/model catalogue: the functions of
    `AgentUtils` agree with each other and with the structural description
    `AgentTypes.Describe` of each model. */
module AgentCatalogue {
  import opened Wrappers
  import opened AgentTypes
  import opened AgentUtils
  import opened Seqs

  /** Whether an agent at version `v` offers a model: OpenAI generation 5.1 from
      version 2 on, generation 5.2 from version 3 on, everything else always */
  predicate Offered(m: Model, v: AgentVersion) {
    match Describe(m)
    case GptFamily(G51, _, _) => VersionAtLeast(v, 2)
    case GptFamily(G52, _, _) => VersionAtLeast(v, 3)
    case _ => true
  }

  /** `v1` is no later than `v2`; "latest" is later than every number */
  predicate VersionNoLater(v1: AgentVersion, v2: AgentVersion) {
    v2.Latest? || (v1.Numeric? && v1.n <= v2.n)
  }

  // ---------------------------------------------------------------------------
  // modelToAgent and agentToModels

  /** An agent's model list holds exactly the models that map back to that
      agent and are offered at that version */
  lemma AgentToModelsExact(a: Agent, v: AgentVersion, m: Model)
    ensures m in AgentToModels(Some(a), v) <==> ModelToAgent(Some(m)) == a && Offered(m, v)
  {
    match a
    case ClaudeCode =>
    case Amp =>
    case Codex => CodexModelsExact(v, m);
  }

  lemma CodexModelsExact(v: AgentVersion, m: Model)
    ensures m in CodexModels(v) <==> Describe(m).GptFamily? && Offered(m, v)
  {
    CodexModelsByGeneration(v, m);
    var d := Describe(m);
    if d.GptFamily? {
      match d.gen
      case G5 => assert Offered(m, v);
      case G51 => assert Offered(m, v) == VersionAtLeast(v, 2);
      case G52 => assert Offered(m, v) == VersionAtLeast(v, 3);
    }
  }

  /** A missing agent lists the default agent's models */
  lemma AgentToModelsDefault(v: AgentVersion)
    ensures AgentToModels(None, v) == [Haiku, Sonnet, Opus]
  {
  }

  lemma LatestCodexModelsDistinct()
    ensures NoDuplicates(CodexModels(Latest))
  {
  }

  /** No agent's list repeats a model */
  lemma AgentToModelsDistinct(a: Agent, v: AgentVersion)
    ensures NoDuplicates(AgentToModels(Some(a), v))
  {
    if a == Codex {
      var l, latest := CodexModels(v), CodexModels(Latest);
      LatestCodexModelsDistinct();
      CodexListsNest(v, Latest);
      SuffixNoDuplicates(latest, |latest| - |l|);
    }
  }

  /** A later version only puts models in front of an earlier version's list */
  lemma CodexListsNest(v1: AgentVersion, v2: AgentVersion)
    requires VersionNoLater(v1, v2)
    ensures |CodexModels(v1)| <= |CodexModels(v2)|
    ensures CodexModels(v2)[|CodexModels(v2)| - |CodexModels(v1)|..] == CodexModels(v1)
  {
    var l1, l2 := CodexModels(v1), CodexModels(v2);
    if |l1| == |l2| {
      assert l2[|l2| - |l1|..] == l2;
    }
  }

  /** At "latest" the three agents' lists split the 28 models between them */
  lemma LatestListsPartitionModels(m: Model)
    ensures m in AgentToModels(Some(ModelToAgent(Some(m))), Latest)
    ensures |AgentToModels(Some(ClaudeCode), Latest)| + |AgentToModels(Some(Amp), Latest)|
      + |AgentToModels(Some(Codex), Latest)| == |AllModels|
  {
    AgentToModelsExact(ModelToAgent(Some(m)), Latest, m);
  }

  // ---------------------------------------------------------------------------
  // parseModelOrNull

  /** The alias table read back: every alias name parses to its alias, and only
      alias names parse at all */
  lemma ParseAliasRoundTrip(a: Alias)
    ensures ParseAlias(AliasName(a)) == Some(a)
  {
  }

  /** No two aliases stand for the same model, since no two aliases describe
      the same generation and line */
  lemma AliasTargetsDistinct(a: Alias, b: Alias)
    ensures AliasTarget(a) == AliasTarget(b) <==> a == b
  {
    if AliasTarget(a) == AliasTarget(b) {
      assert AliasFamily(a) == AliasFamily(b);
    }
  }

  /** A missing or empty name parses to nothing */
  lemma ParseModelOrNullEmpty()
    ensures ParseModelOrNull(None) == None
    ensures ParseModelOrNull(Some("")) == None
  {
  }

  /** A canonical name parses to its own model */
  lemma ParseModelOrNullCanonical(m: Model)
    ensures ParseModelOrNull(Some(ModelName(m))) == Some(m)
  {
    ModelNameRoundTrip(m);
  }

  /** An alias parses to the model it stands for */
  lemma ParseModelOrNullAlias(a: Alias)
    ensures ParseModelOrNull(Some(AliasName(a))) == Some(AliasTarget(a))
  {
    AliasIsNotCanonical(a);
    ParseAliasRoundTrip(a);
  }

  /** Every external name parses, to the canonical model it denotes, and any
      other string parses to nothing */
  lemma ParseModelOrNullExact(s: string)
    ensures ParseModelOrNull(Some(s)).Some? <==> exists x :: ExternalName(x) == s
    ensures forall x :: ExternalName(x) == s ==>
      ParseModelOrNull(Some(s)) == Some(Denotes(x))
  {
    forall x | ExternalName(x) == s
      ensures ParseModelOrNull(Some(s)) == Some(Denotes(x))
    {
      match x
      case Canonical(m) => ParseModelOrNullCanonical(m);
      case Aliased(a) => ParseModelOrNullAlias(a);
    }
  }

  // ---------------------------------------------------------------------------
  // getAgentModelGroups

  /** Every model in an agent's group belongs to that agent */
  lemma AgentModelGroupsAgree(agent: Agent, prefs: AgentModelPreferences, selected: seq<Model>, version: int)
    ensures forall m :: m in AgentModelGroups(agent, prefs, selected, version).models ==> ModelToAgent(Some(m)) == agent
  {
  }

  // ---------------------------------------------------------------------------
  // Ordering and slash commands

  /** `sortByAgents` orders claudeCode before codex before amp, and is a
      consistent comparator: zero exactly on equal agents, antisymmetric */
  lemma SortByAgentsOrder(a: Agent, b: Agent)
    ensures SortByAgents(ClaudeCode, Codex) < 0 && SortByAgents(Codex, Amp) < 0
    ensures SortByAgents(a, b) == 0 <==> a == b
    ensures SortByAgents(a, b) == -SortByAgents(b, a)
  {
  }
}
