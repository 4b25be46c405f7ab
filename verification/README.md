# Scout agent catalogue and daily sweep, in Dafny

This project models three pieces of the Scout code base and proves properties about them.

- **The agent and model catalogue** (`packages/agent/src/types.ts`, `packages/agent/src/utils.ts`).
  - There are three coding agents: Claude Code, Codex and Amp. There are 28 canonical models, and seven alias names accepted from outside.
  - The functions covered are:
    - which agent runs a model;
    - which models an agent offers at a given agent version, which is a number or "latest";
    - the default model of an agent, and whether a model is enabled by default;
    - parsing of external model names;
    - the per-user filtered model groups;
    - agent ordering, slash commands, plan-mode support and ChatGPT OAuth.
- **The daily sweep endpoint** (`src/app/api/internal/cron/daily/route.ts`).
  - It first authorises the request. It then runs four phases in order: stalled threads, scheduled chats, queued owners and due automations.
  - Each phase walks a snapshot list in windows of 5 or 10 items and sleeps after each window.
  - The sweep is a pure function from a snapshot of the world to an ordered trace of events and an HTTP response. The trace holds fetches, the stop call, analytics captures, windows and sleeps.
- **The internal request guard** (`src/server-lib/internal-request.ts`).
  - A path starting with "/" or "http" is refused.
  - Any other path is POSTed with the shared secret to the internal API under the application's base URL.
  - The configuration check of the "Anthropic is down" report.

Modules:

- `Wrappers`: `Option` and `Result`.
- `Seqs`: filter, map, flatten and count over sequences, plus subsequence and no-duplicates predicates.
- `AgentTypes`: the closed vocabularies. It also gives each model an independent structural description (`Describe`): its family, and for OpenAI models the generation, line and effort. The catalogue lemmas compare the source's functions against this description.
- `AgentUtils`: the functions of `utils.ts`.
- `AgentCatalogue`: lemmas that tie those functions together.
- `InternalRequest`: `internalPOST` and `isAnthropicDownPOST`, as the request each would send.
- `Batching`: the `for (i = 0; i < n; i += W) slice(i, i + W)` loop.
- `DailyCron`: the phases and `GET`.
- `SweepProperties`: the sweep's lemmas.

External collaborators are fields of `DailyCron.Env`:

- the database queries and `stopStalledThreads`, as a result or a thrown value;
- the rate limiter's `getRemaining`;
- whether each `fetch`, hibernation and automation run succeeds;
- `NODE_ENV`, the cron secret, the public base URL and the shared secret.

A window's items run concurrently in the source. A window is therefore one event holding the multiset of calls it made and its counts of fulfilled and rejected items. Nothing is claimed about order inside a window.

## Model

| member | source | states |
|---|---|---|
| AgentTypes.ParseModelName | packages/agent/src/types.ts:3-37 | the schema check of a canonical model name, a match on the 28 wire names; what it accepts and rejects is stated by AgentTypes.ParseModelNameSound and AgentTypes.ParseModelNameComplete |
| AgentTypes.ModelCatalogue | packages/agent/src/types.ts:3-37 | the model enumeration has exactly 28 values, lists none twice, and lists every model |
| AgentTypes.ModelIndex | packages/agent/src/types.ts:3-37 | every model has a position in the schema's option list, and the list holds that model there |
| AgentTypes.ModelNameRoundTrip | packages/agent/src/types.ts:3-37 | parsing a model's wire name against the schema gives back that model |
| AgentTypes.ParseModelNameSound | packages/agent/src/types.ts:3-37 | a string the schema accepts is the wire name of the model it is parsed to |
| AgentTypes.ParseModelNameComplete | packages/agent/src/types.ts:3-37 | the schema rejects a string exactly when no model has it as wire name |
| AgentTypes.ModelNamesDistinct | packages/agent/src/types.ts:3-37 | two models have the same wire name if and only if they are the same model |
| AgentTypes.AliasCatalogue | packages/agent/src/types.ts:40-49 | the external schema adds exactly 7 alias names, none twice |
| AgentTypes.AliasIsNotCanonical | packages/agent/src/types.ts:40-49 | no alias name is accepted as a canonical model name |
| AgentTypes.ExternalNamesDistinct | packages/agent/src/types.ts:40-49 | the 35 external names are pairwise different: equal names mean the same canonical model or alias |
| AgentTypes.ModelPreference | packages/agent/src/types.ts:73-76 | a per-model preference exists only when the models map is present and has the key, and then it is the stored boolean, so an absent entry differs from false |
| AgentUtils.EnsureAgent | packages/agent/src/utils.ts:12-27 | a missing agent becomes claudeCode; a given agent is returned unchanged |
| AgentUtils.ModelToAgent | packages/agent/src/utils.ts:32-77 | a missing model runs under claudeCode, and every model runs under the agent of its family: Claude models under claudeCode, the Amp model under amp, every OpenAI model under codex |
| AgentUtils.CodexModels | packages/agent/src/utils.ts:96-131 | codex offers 6 models below version 2, 16 from version 2, and 24 from version 3 or at "latest" |
| AgentUtils.CodexGenerationLists | packages/agent/src/utils.ts:97-130 | the base, version-2 and version-3 codex lists hold exactly the OpenAI models of generation 5, 5.1 and 5.2 |
| AgentUtils.CodexModelsByGeneration | packages/agent/src/utils.ts:96-131 | the codex list at a version holds exactly the generation-5 OpenAI models, the generation-5.1 ones from version 2 on, and the generation-5.2 ones from version 3 on |
| AgentUtils.AgentToModels | packages/agent/src/utils.ts:82-139 | every agent offers at least one model, and every listed model runs under the requested agent, the default agent when none is given; exact membership is AgentCatalogue.AgentToModelsExact |
| AgentUtils.DefaultModelForAgent | packages/agent/src/utils.ts:141-163 | an agent's default model is in that agent's list at the same version, is enabled by default there, and runs under that agent |
| AgentUtils.IsModelEnabledByDefault | packages/agent/src/utils.ts:526-574 | the plain OpenAI models are never enabled by default; generation-5 codex models are enabled exactly at a numeric version below 2; all other models always |
| AgentUtils.IsPlanModeSupported | packages/agent/src/utils.ts:179-192 | plan mode is supported exactly for a missing model or a Claude model |
| AgentUtils.ModelRequiresChatGptOAuth | packages/agent/src/utils.ts:649-662 | OAuth is required exactly for the four generation-5.2 codex models, and not for a missing model |
| AgentUtils.ParseAlias | packages/agent/src/utils.ts:619-633 | a string is recognised exactly when it is an alias's name, and then as that alias |
| AgentUtils.AliasTarget | packages/agent/src/utils.ts:619-633 | each alias stands for the medium-effort model of the generation and line the alias names |
| AgentUtils.ParseModelOrNull | packages/agent/src/utils.ts:606-639 | an absent or empty name gives null; any model returned is denoted by the given string as a canonical name or an alias |
| AgentUtils.AgentModelGroups | packages/agent/src/utils.ts:431-461 | a group is labelled with its agent and keeps, in order, a subsequence of the agent's models: a model is kept exactly when it is offered and is selected, or explicitly enabled, or has no preference and is enabled by default |
| AgentUtils.SortByAgents | packages/agent/src/utils.ts:500-510 | the comparator is zero only on equal agents, negative from claudeCode to any other agent, and positive from amp to any other agent |
| AgentUtils.AgentSlashCommands | packages/agent/src/utils.ts:463-498 | Claude Code has 5 commands and the others 2; every list starts with the two universal commands and names no command twice |
| AgentUtils.InsertAgent | packages/agent/src/utils.ts:506-510 | inserting into a list sorted by the agent comparator keeps it sorted and adds exactly the new agent |
| AgentUtils.SortAgents | packages/agent/src/utils.ts:213-217 | sorting by the agent comparator yields a sorted permutation of the input |
| AgentUtils.AllAgentTypes | packages/agent/src/utils.ts:207-217 | the agent types come out as claudeCode, codex, amp, in that order |
| AgentCatalogue.AgentToModelsExact | packages/agent/src/utils.ts:82-139 | a model is in an agent's list at a version if and only if it maps back to that agent and its generation is offered at that version |
| AgentCatalogue.AgentToModelsDefault | packages/agent/src/utils.ts:88-92 | a missing agent lists the default agent's models haiku, sonnet, opus |
| AgentCatalogue.CodexListsNest | packages/agent/src/utils.ts:96-131 | each earlier version's codex list is a suffix of a later version's list |
| AgentCatalogue.LatestCodexModelsDistinct | packages/agent/src/utils.ts:96-131 | the latest codex list repeats no model |
| AgentCatalogue.AgentToModelsDistinct | packages/agent/src/utils.ts:82-139 | no agent's list repeats a model at any version |
| AgentCatalogue.LatestListsPartitionModels | packages/agent/src/utils.ts:82-139 | at "latest" every model is in its own agent's list, and the three lists together have exactly 28 entries |
| AgentCatalogue.ParseAliasRoundTrip | packages/agent/src/utils.ts:619-633 | every alias name is recognised as its alias |
| AgentCatalogue.AliasTargetsDistinct | packages/agent/src/utils.ts:619-633 | two aliases stand for the same model exactly when they are the same alias |
| AgentCatalogue.ParseModelOrNullEmpty | packages/agent/src/utils.ts:611-613 | an absent or empty model name parses to null |
| AgentCatalogue.ParseModelOrNullCanonical | packages/agent/src/utils.ts:614-618 | a canonical model name parses to that model |
| AgentCatalogue.ParseModelOrNullAlias | packages/agent/src/utils.ts:619-633 | an alias name parses to the canonical model it stands for |
| AgentCatalogue.ParseModelOrNullExact | packages/agent/src/utils.ts:606-639 | a name parses if and only if it is an external name, and then to the model that name denotes; any other string gives null |
| AgentCatalogue.AgentModelGroupsAgree | packages/agent/src/utils.ts:431-461 | every model in an agent's group belongs to that agent |
| AgentCatalogue.SortByAgentsOrder | packages/agent/src/utils.ts:500-510 | the comparator puts claudeCode before codex before amp, is zero only on equal agents, and is antisymmetric |
| InternalRequest.InternalPost | src/server-lib/internal-request.ts:4-16 | a path starting with "/" or "http" is refused with the guard's error and nothing is sent. Any other path is POSTed as JSON with the shared secret to base URL + "/api/internal/" + path |
| InternalRequest.InternalPostInjective | src/server-lib/internal-request.ts:9 | two accepted paths produce the same request only if they are the same path |
| InternalRequest.PlainPathAccepted | src/server-lib/internal-request.ts:6-8 | a path that starts with a character other than "/" or "h" always passes the guard |
| InternalRequest.IsAnthropicDownPost | src/server-lib/internal-request.ts:18-35 | nothing is sent when the report URL or its secret is unset or empty; otherwise one POST goes to the report-issue endpoint with the API secret |
| Batching.Windows | src/app/api/internal/cron/daily/route.ts:38-39 | the windows concatenate to the list, number ceil(N / W), are full except the last, which holds 1 to W items, and are empty exactly for an empty list |
| Batching.Slice | src/app/api/internal/cron/daily/route.ts:39 | a slice from an index inside the list runs up to the end index clamped to the length |
| Batching.WindowsFromCover | src/app/api/internal/cron/daily/route.ts:38-39 | the windows from index i, concatenated, are the list from i on |
| Batching.WindowsFromSizes | src/app/api/internal/cron/daily/route.ts:38-39 | every window but the last is full, and the last holds between 1 and W items |
| Batching.WindowsFromCount | src/app/api/internal/cron/daily/route.ts:38-39 | the number of windows is the least k with N <= k * W, that is ceil(N / W) |
| SweepProperties.WindowSettlesEveryItem | src/app/api/internal/cron/daily/route.ts:69-77 | in every window the fulfilled count plus the rejected count equals the window's size |
| SweepProperties.StepsLayout | src/app/api/internal/cron/daily/route.ts:67-82 | window k is event 2k of a loop's trace and a sleep is event 2k+1 |
| SweepProperties.StepsTotals | src/app/api/internal/cron/daily/route.ts:67-82 | a loop sleeps once per window, and its calls and settled items are those of all the windows' items together |
| SweepProperties.BatchLoopShape | src/app/api/internal/cron/daily/route.ts:67-82 | a loop makes ceil(N / W) sleeps, one after each window including the last, and dispatches and settles every item exactly once; an empty list gives an empty trace |
| SweepProperties.BatchLoopEvents | src/app/api/internal/cron/daily/route.ts:38-57 | a loop's trace holds only windows and sleeps, and no window rejects when no item can |
| SweepProperties.LoopAfterPrefix | src/app/api/internal/cron/daily/route.ts:60-83 | after a prefix of fetches and captures, a phase's calls, sleeps and settled items are exactly those of its loop |
| SweepProperties.TwelveScheduledItems | src/app/api/internal/cron/daily/route.ts:67-82 | 12 scheduled chats go out in windows of 5, 5 and 2, with 3 sleeps |
| SweepProperties.ScheduledPathAccepted | src/app/api/internal/cron/daily/route.ts:71-73 | a scheduled chat's path passes the guard and is posted to the internal API |
| SweepProperties.QueuePathAccepted | src/app/api/internal/cron/daily/route.ts:114 | an owner's queue path passes the guard and is posted to the internal API |
| SweepProperties.QueuePostInjective | src/app/api/internal/cron/daily/route.ts:141 | different owners' queue posts are different requests |
| DailyCron.StalledPhase | src/app/api/internal/cron/daily/route.ts:24-58 | the phase begins with the query; only the query and the stop call can throw, and with both succeeding the phase does not throw |
| DailyCron.ScheduledPhase | src/app/api/internal/cron/daily/route.ts:60-83 | the phase begins with the query and throws exactly when the query does; a failed post does not throw |
| DailyCron.QueuedPhase | src/app/api/internal/cron/daily/route.ts:85-146 | the phase begins with the rate-limited query and throws exactly when one of its two queries does; a failed quota lookup or post does not throw |
| DailyCron.AutomationsPhase | src/app/api/internal/cron/daily/route.ts:148-173 | the phase begins with the query and throws exactly when the query does; a failed automation run does not throw |
| DailyCron.RunPhases | src/app/api/internal/cron/daily/route.ts:186-200 | the run throws exactly when some phase throws, and then with the error of one of the phases |
| DailyCron.Get | src/app/api/internal/cron/daily/route.ts:175-211 | every answer is 200, 401 or 500; it is 401 exactly when the request is not authorised, and 200 exactly when it is authorised and no phase throws; a JSON body reports success exactly at 200 |
| SweepProperties.StalledPhaseQueryFails | src/app/api/internal/cron/daily/route.ts:26 | a failed stalled-thread query ends the phase with its error, before any stop call or hibernation |
| SweepProperties.StalledPhaseEmpty | src/app/api/internal/cron/daily/route.ts:26-30 | with no stalled threads the phase returns after the query, without stopping anything |
| SweepProperties.StalledPhaseStopsFirst | src/app/api/internal/cron/daily/route.ts:32-57 | all stalled ids are stopped in one call before any hibernation; a failed stop ends the phase with its error and hibernates nothing |
| SweepProperties.StalledPhaseHibernates | src/app/api/internal/cron/daily/route.ts:37-57 | after the stop, exactly the threads with a non-empty sandbox id are hibernated, in windows of 10 that never reject and each end with a sleep |
| SweepProperties.StalledPhaseIgnoresHibernationOutcome | src/app/api/internal/cron/daily/route.ts:43-52 | the phase's trace and outcome do not depend on whether hibernation calls fail |
| SweepProperties.ScheduledPhaseCalls | src/app/api/internal/cron/daily/route.ts:60-83 | every due chat is posted exactly once to its process-scheduled-task path, in windows of 5 with a sleep each; a failed query throws before any post |
| SweepProperties.RateLimitedDrainCalls | src/app/api/internal/cron/daily/route.ts:94-118 | the capture is emitted only for a non-empty list. Exactly the owners with quota left, a successful lookup other than 0, get one queue post; every owner settles |
| SweepProperties.RateLimitedOwnerPostedOnce | src/app/api/internal/cron/daily/route.ts:105-118 | with owners listed once, an owner's queue is posted exactly once if it has quota left and otherwise not at all |
| SweepProperties.StuckDrainCalls | src/app/api/internal/cron/daily/route.ts:126-145 | the capture is emitted only for a non-empty list, and every stuck owner gets exactly one queue post, with no quota check |
| SweepProperties.QueuedPhaseQueryFails | src/app/api/internal/cron/daily/route.ts:89 | a failed query for rate-limited owners ends the phase with its error, before any capture, post or stuck-owner query |
| SweepProperties.QueuedPhaseOrder | src/app/api/internal/cron/daily/route.ts:85-146 | the rate-limited owners are drained completely before the stuck owners are queried; a failed second query keeps the first drain's posts and ends the phase with its error |
| SweepProperties.AutomationsPhaseCalls | src/app/api/internal/cron/daily/route.ts:148-173 | every due automation runs once with source "automated", in windows of 5 with a sleep each; a failed run does not stop the others |
| SweepProperties.RunPhasesAllSucceed | src/app/api/internal/cron/daily/route.ts:186-200 | when no phase throws, every phase runs and the trace is their traces in order |
| SweepProperties.RunPhasesFirstFailure | src/app/api/internal/cron/daily/route.ts:186-210 | the first phase to throw ends the run with its error; earlier phases ran completely and later ones not at all |
| SweepProperties.PhaseOrderTrace | src/app/api/internal/cron/daily/route.ts:187-197 | the phases run as stalled, scheduled, queued, automations |
| SweepProperties.GetUnauthorized | src/app/api/internal/cron/daily/route.ts:176-182 | in production a request without exactly "Bearer " + the cron secret gets 401 "Unauthorized" and runs no phase |
| SweepProperties.GetOpenOutsideProduction | src/app/api/internal/cron/daily/route.ts:177-182 | outside production no request gets 401 |
| SweepProperties.GetFullRun | src/app/api/internal/cron/daily/route.ts:186-200 | an authorised run in which no phase throws runs all four phases and answers 200 with success true |
| SweepProperties.GetStopsAtFirstFailure | src/app/api/internal/cron/daily/route.ts:186-210 | the first phase to throw ends the sweep with 500, success false and the error's message, or "Unknown error" for a non-Error value |

## Left out

- Display tables. `getModelDisplayName`, `getAgentInfo`, `getModelInfo`, `getAgentDisplayName` and `getAgentProviderDisplayName` are string tables with no behaviour. The agent display names appear only as the group label.
- Small utils.ts functions outside this model: `isImageUploadSupported`, `isConnectedCredentialsSupported`, `isAgentEnabledByDefault` and `normalizedModelForDaemon`. Each is a constant answer per agent, or the identity.
- Unreachable `never`/`console.warn` fallbacks in utils.ts. Every match over an agent or model here is exhaustive.
- Fractional agent versions. A version is an integer or "latest".
- The `isLoading` flag of a slash command is never set by the modelled functions.
- The per-agent preference map is represented, but no modelled function reads it.
- Timing and concurrency. Concurrency inside a window, and the 1000 ms sleep, are not modelled: a sleep is an event, and a window's calls are a multiset.
- Console logging.
- Analytics capture failure. `getPostHogServer().capture` is modelled as an event that never fails.
- Collaborator behaviour. The database, `stopStalledThreads`, sandbox hibernation, `runAutomation`, the rate limiter and `fetch` are answers in `DailyCron.Env`. So are `publicAppUrl()` and the environment variables.
- `broadcast-server.ts` is not part of this model.
- What the internal API does with a post is not modelled. Only whether the post's promise resolves is modelled.
- Sleep placement. route.ts:56, 81, 117, 144 and 171 sleep after every window, the last one included, so a loop over N items sleeps ceil(N / W) times: 3 times for 12 items in windows of 5. The model keeps that count.
- AgentUtils.AliasTarget: relates each alias to its model through the structural description of both. It does not state the spelling rule that an alias is its target's name with "-medium" added or removed.
