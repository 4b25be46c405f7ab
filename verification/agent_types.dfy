/** The closed vocabularies of the agent package (packages/agent/src/types.ts):
    the three agents, the 28 canonical models with their wire names, the seven
    external alias names, credentials, slash commands and per-user preferences.

    Besides the wire-name table, every model gets a structural description
    (`Describe`): which family it belongs to and, for the OpenAI models, its
    generation, product line and reasoning effort. The description is written
    independently of the name table and of the functions over models, and
    serves as the reference the catalogue lemmas compare them with. */
module AgentTypes {
  import opened Wrappers
  import opened Seqs

  /** `AIAgentSchema` */
  datatype Agent = ClaudeCode | Amp | Codex

  /** `AIModelSchema`, constructors in the order the schema lists them */
  datatype Model =
    | Opus | Sonnet | Haiku
    | AmpModel
    | Gpt5 | Gpt5Low | Gpt5High
    | Gpt5CodexLow | Gpt5CodexMedium | Gpt5CodexHigh
    | Gpt52Low | Gpt52 | Gpt52High | Gpt52XHigh
    | Gpt51 | Gpt51Low | Gpt51High
    | Gpt51CodexLow | Gpt51CodexMedium | Gpt51CodexHigh
    | Gpt51CodexMax | Gpt51CodexMaxLow | Gpt51CodexMaxHigh | Gpt51CodexMaxXHigh
    | Gpt52CodexLow | Gpt52CodexMedium | Gpt52CodexHigh | Gpt52CodexXHigh

  /** The schema's option list, in schema order */
  const AllModels: seq<Model> := [
    Opus, Sonnet, Haiku,
    AmpModel,
    Gpt5, Gpt5Low, Gpt5High,
    Gpt5CodexLow, Gpt5CodexMedium, Gpt5CodexHigh,
    Gpt52Low, Gpt52, Gpt52High, Gpt52XHigh,
    Gpt51, Gpt51Low, Gpt51High,
    Gpt51CodexLow, Gpt51CodexMedium, Gpt51CodexHigh,
    Gpt51CodexMax, Gpt51CodexMaxLow, Gpt51CodexMaxHigh, Gpt51CodexMaxXHigh,
    Gpt52CodexLow, Gpt52CodexMedium, Gpt52CodexHigh, Gpt52CodexXHigh
  ]

  /** The wire name of each canonical model */
  function ModelName(m: Model): string {
    match m
    case Opus => "opus"
    case Sonnet => "sonnet"
    case Haiku => "haiku"
    case AmpModel => "amp"
    case Gpt5 => "gpt-5"
    case Gpt5Low => "gpt-5-low"
    case Gpt5High => "gpt-5-high"
    case Gpt5CodexLow => "gpt-5-codex-low"
    case Gpt5CodexMedium => "gpt-5-codex-medium"
    case Gpt5CodexHigh => "gpt-5-codex-high"
    case Gpt52Low => "gpt-5.2-low"
    case Gpt52 => "gpt-5.2"
    case Gpt52High => "gpt-5.2-high"
    case Gpt52XHigh => "gpt-5.2-xhigh"
    case Gpt51 => "gpt-5.1"
    case Gpt51Low => "gpt-5.1-low"
    case Gpt51High => "gpt-5.1-high"
    case Gpt51CodexLow => "gpt-5.1-codex-low"
    case Gpt51CodexMedium => "gpt-5.1-codex-medium"
    case Gpt51CodexHigh => "gpt-5.1-codex-high"
    case Gpt51CodexMax => "gpt-5.1-codex-max"
    case Gpt51CodexMaxLow => "gpt-5.1-codex-max-low"
    case Gpt51CodexMaxHigh => "gpt-5.1-codex-max-high"
    case Gpt51CodexMaxXHigh => "gpt-5.1-codex-max-xhigh"
    case Gpt52CodexLow => "gpt-5.2-codex-low"
    case Gpt52CodexMedium => "gpt-5.2-codex-medium"
    case Gpt52CodexHigh => "gpt-5.2-codex-high"
    case Gpt52CodexXHigh => "gpt-5.2-codex-xhigh"
  }

  /** The position of each model in the schema's option list */
  function ModelIndex(m: Model): (i: nat)
    ensures i < |AllModels| && AllModels[i] == m
  {
    match m
    case Opus => 0
    case Sonnet => 1
    case Haiku => 2
    case AmpModel => 3
    case Gpt5 => 4
    case Gpt5Low => 5
    case Gpt5High => 6
    case Gpt5CodexLow => 7
    case Gpt5CodexMedium => 8
    case Gpt5CodexHigh => 9
    case Gpt52Low => 10
    case Gpt52 => 11
    case Gpt52High => 12
    case Gpt52XHigh => 13
    case Gpt51 => 14
    case Gpt51Low => 15
    case Gpt51High => 16
    case Gpt51CodexLow => 17
    case Gpt51CodexMedium => 18
    case Gpt51CodexHigh => 19
    case Gpt51CodexMax => 20
    case Gpt51CodexMaxLow => 21
    case Gpt51CodexMaxHigh => 22
    case Gpt51CodexMaxXHigh => 23
    case Gpt52CodexLow => 24
    case Gpt52CodexMedium => 25
    case Gpt52CodexHigh => 26
    case Gpt52CodexXHigh => 27
  }

  /** `AIModelSchema.safeParse`: the canonical model whose wire name is exactly
      `s`, if there is one */
  function ParseModelName(s: string): (r: Option<Model>)
  {
    match s
    case "opus" => Some(Opus)
    case "sonnet" => Some(Sonnet)
    case "haiku" => Some(Haiku)
    case "amp" => Some(AmpModel)
    case "gpt-5" => Some(Gpt5)
    case "gpt-5-low" => Some(Gpt5Low)
    case "gpt-5-high" => Some(Gpt5High)
    case "gpt-5-codex-low" => Some(Gpt5CodexLow)
    case "gpt-5-codex-medium" => Some(Gpt5CodexMedium)
    case "gpt-5-codex-high" => Some(Gpt5CodexHigh)
    case "gpt-5.2-low" => Some(Gpt52Low)
    case "gpt-5.2" => Some(Gpt52)
    case "gpt-5.2-high" => Some(Gpt52High)
    case "gpt-5.2-xhigh" => Some(Gpt52XHigh)
    case "gpt-5.1" => Some(Gpt51)
    case "gpt-5.1-low" => Some(Gpt51Low)
    case "gpt-5.1-high" => Some(Gpt51High)
    case "gpt-5.1-codex-low" => Some(Gpt51CodexLow)
    case "gpt-5.1-codex-medium" => Some(Gpt51CodexMedium)
    case "gpt-5.1-codex-high" => Some(Gpt51CodexHigh)
    case "gpt-5.1-codex-max" => Some(Gpt51CodexMax)
    case "gpt-5.1-codex-max-low" => Some(Gpt51CodexMaxLow)
    case "gpt-5.1-codex-max-high" => Some(Gpt51CodexMaxHigh)
    case "gpt-5.1-codex-max-xhigh" => Some(Gpt51CodexMaxXHigh)
    case "gpt-5.2-codex-low" => Some(Gpt52CodexLow)
    case "gpt-5.2-codex-medium" => Some(Gpt52CodexMedium)
    case "gpt-5.2-codex-high" => Some(Gpt52CodexHigh)
    case "gpt-5.2-codex-xhigh" => Some(Gpt52CodexXHigh)
    case _ => None
  }

  /** The names `AIModelExternalSchema` adds to the canonical ones */
  datatype Alias =
    | Gpt5Medium | Gpt51Medium | Gpt52Medium
    | Gpt5Codex | Gpt51Codex | Gpt51CodexMaxMedium | Gpt52Codex

  const AllAliases: seq<Alias> := [
    Gpt5Medium, Gpt51Medium, Gpt52Medium,
    Gpt5Codex, Gpt51Codex, Gpt51CodexMaxMedium, Gpt52Codex
  ]

  function AliasName(a: Alias): string {
    match a
    case Gpt5Medium => "gpt-5-medium"
    case Gpt51Medium => "gpt-5.1-medium"
    case Gpt52Medium => "gpt-5.2-medium"
    case Gpt5Codex => "gpt-5-codex"
    case Gpt51Codex => "gpt-5.1-codex"
    case Gpt51CodexMaxMedium => "gpt-5.1-codex-max-medium"
    case Gpt52Codex => "gpt-5.2-codex"
  }

  /** `AIModelExternal`: a canonical model or one of the aliases */
  datatype ExternalModel = Canonical(model: Model) | Aliased(alias: Alias)

  function ExternalName(x: ExternalModel): string {
    match x
    case Canonical(m) => ModelName(m)
    case Aliased(a) => AliasName(a)
  }

  /** The `agentVersion` option: a number or the string "latest" */
  datatype AgentVersion = Numeric(n: int) | Latest

  /** `AIAgentCredentials`, a three-way tagged union */
  datatype AgentCredentials =
    | EnvVar(key: string, value: string)
    | JsonFile(contents: string)
    | BuiltInCredits

  /** `AIAgentSlashCommand`; the optional `isLoading` flag is never set by the
      functions modelled here and is left out */
  datatype SlashCommand = SlashCommand(name: string, description: string)

  /** `AgentModelPreferences`: both maps are optional and every entry in them is
      optional, so "no entry" is distinct from an entry saying false */
  datatype AgentModelPreferences = AgentModelPreferences(
    agents: Option<map<Agent, bool>>,
    models: Option<map<Model, bool>>)

  /** The explicit per-model preference, if the user stated one */
  function ModelPreference(prefs: AgentModelPreferences, m: Model): (r: Option<bool>)
    ensures r.Some? <==> prefs.models.Some? && m in prefs.models.value
    ensures r.Some? ==> r.value == prefs.models.value[m]
  {
    match prefs.models
    case None => None
    case Some(ms) => if m in ms then Some(ms[m]) else None
  }

  // ---------------------------------------------------------------------------
  // Structural description of the models

  datatype Generation = G5 | G51 | G52
  datatype Line = Plain | CodexLine | CodexMax
  datatype Effort = Low | Medium | High | XHigh
  datatype Family = ClaudeFamily | AmpFamily | GptFamily(gen: Generation, line: Line, effort: Effort)

  /** What each model is, read off the product catalogue rather than off the
      functions that the source writes over it */
  function Describe(m: Model): Family {
    match m
    case Opus => ClaudeFamily
    case Sonnet => ClaudeFamily
    case Haiku => ClaudeFamily
    case AmpModel => AmpFamily
    case Gpt5 => GptFamily(G5, Plain, Medium)
    case Gpt5Low => GptFamily(G5, Plain, Low)
    case Gpt5High => GptFamily(G5, Plain, High)
    case Gpt5CodexLow => GptFamily(G5, CodexLine, Low)
    case Gpt5CodexMedium => GptFamily(G5, CodexLine, Medium)
    case Gpt5CodexHigh => GptFamily(G5, CodexLine, High)
    case Gpt52Low => GptFamily(G52, Plain, Low)
    case Gpt52 => GptFamily(G52, Plain, Medium)
    case Gpt52High => GptFamily(G52, Plain, High)
    case Gpt52XHigh => GptFamily(G52, Plain, XHigh)
    case Gpt51 => GptFamily(G51, Plain, Medium)
    case Gpt51Low => GptFamily(G51, Plain, Low)
    case Gpt51High => GptFamily(G51, Plain, High)
    case Gpt51CodexLow => GptFamily(G51, CodexLine, Low)
    case Gpt51CodexMedium => GptFamily(G51, CodexLine, Medium)
    case Gpt51CodexHigh => GptFamily(G51, CodexLine, High)
    case Gpt51CodexMax => GptFamily(G51, CodexMax, Medium)
    case Gpt51CodexMaxLow => GptFamily(G51, CodexMax, Low)
    case Gpt51CodexMaxHigh => GptFamily(G51, CodexMax, High)
    case Gpt51CodexMaxXHigh => GptFamily(G51, CodexMax, XHigh)
    case Gpt52CodexLow => GptFamily(G52, CodexLine, Low)
    case Gpt52CodexMedium => GptFamily(G52, CodexLine, Medium)
    case Gpt52CodexHigh => GptFamily(G52, CodexLine, High)
    case Gpt52CodexXHigh => GptFamily(G52, CodexLine, XHigh)
  }

  /** The agent that runs a model family: Claude models run under Claude Code,
      the Amp model under Amp, OpenAI models under Codex */
  function FamilyAgent(f: Family): Agent {
    match f
    case ClaudeFamily => ClaudeCode
    case AmpFamily => Amp
    case GptFamily(_, _, _) => Codex
  }

  /** What each alias names, read off the alias itself: a generation and a
      product line, always at medium effort */
  function AliasFamily(a: Alias): Family {
    match a
    case Gpt5Medium => GptFamily(G5, Plain, Medium)
    case Gpt51Medium => GptFamily(G51, Plain, Medium)
    case Gpt52Medium => GptFamily(G52, Plain, Medium)
    case Gpt5Codex => GptFamily(G5, CodexLine, Medium)
    case Gpt51Codex => GptFamily(G51, CodexLine, Medium)
    case Gpt51CodexMaxMedium => GptFamily(G51, CodexMax, Medium)
    case Gpt52Codex => GptFamily(G52, CodexLine, Medium)
  }

  // ---------------------------------------------------------------------------
  // Facts about the vocabularies

  /** Every model is in the schema's list, at its own index */
  lemma ModelIndexInverseLow()
    ensures forall i :: 0 <= i < 14 ==> ModelIndex(AllModels[i]) == i
  {
  }

  lemma ModelIndexInverseHigh()
    ensures forall i :: 14 <= i < |AllModels| ==> ModelIndex(AllModels[i]) == i
  {
  }

  /** The schema lists every model exactly once, 28 in all */
  lemma ModelCatalogue()
    ensures |AllModels| == 28
    ensures NoDuplicates(AllModels)
    ensures forall m: Model :: m in AllModels
  {
    ModelIndexInverseLow();
    ModelIndexInverseHigh();
    forall m: Model ensures m in AllModels {
      assert AllModels[ModelIndex(m)] == m;
    }
  }

  /** The wire name of a model parses back to that model, and so wire names are
      pairwise distinct */
  lemma ModelNameRoundTrip(m: Model)
    ensures ParseModelName(ModelName(m)) == Some(m)
  {
  }

  /** A name parses only to the model it names ... */
  lemma ParseModelNameSound(s: string)
    ensures ParseModelName(s).Some? ==> ModelName(ParseModelName(s).value) == s
  {
  }

  /** ... and fails only on names no model has */
  lemma ParseModelNameComplete(s: string)
    ensures ParseModelName(s).None? <==> forall m: Model :: ModelName(m) != s
  {
    if ParseModelName(s).None? {
      forall m: Model ensures ModelName(m) != s {
        ModelNameRoundTrip(m);
      }
    } else {
      ParseModelNameSound(s);
    }
  }

  lemma ModelNamesDistinct(m1: Model, m2: Model)
    ensures ModelName(m1) == ModelName(m2) <==> m1 == m2
  {
    ModelNameRoundTrip(m1);
    ModelNameRoundTrip(m2);
  }

  /** There are seven aliases, all different */
  lemma AliasCatalogue()
    ensures |AllAliases| == 7
    ensures NoDuplicates(AllAliases)
    ensures forall a: Alias :: a in AllAliases
  {
    forall a: Alias ensures a in AllAliases {
      match a
      case Gpt5Medium =>
      case Gpt51Medium =>
      case Gpt52Medium =>
      case Gpt5Codex =>
      case Gpt51Codex =>
      case Gpt51CodexMaxMedium =>
      case Gpt52Codex =>
    }
  }

  /** No alias is a canonical model name */
  lemma AliasIsNotCanonical(a: Alias)
    ensures ParseModelName(AliasName(a)) == None
  {
  }

  /** Canonical and alias names together are 35 distinct external names */
  lemma ExternalNamesDistinct(x: ExternalModel, y: ExternalModel)
    ensures ExternalName(x) == ExternalName(y) <==> x == y
  {
    match (x, y)
    case (Canonical(m1), Canonical(m2)) => ModelNamesDistinct(m1, m2);
    case (Canonical(m1), Aliased(a2)) => AliasIsNotCanonical(a2); ModelNameRoundTrip(m1);
    case (Aliased(a1), Canonical(m2)) => AliasIsNotCanonical(a1); ModelNameRoundTrip(m2);
    case (Aliased(a1), Aliased(a2)) =>
  }
}
