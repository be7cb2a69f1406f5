# ValoStat agent screens: view-model state machines in Dafny

This project models the two view-models behind ValoStat's agent screens.

- `AgentsViewModel` drives the agent list.
- `AgentDetailsViewModel` drives the page of one agent.

Each view-model keeps one screen state with three variants: Loading, Data or Error.
The callbacks of a repository load overwrite that state: loading, success from the local cache, success from the remote source, and error.
The details view-model also folds user intents into its Data state.
A click on a voice line makes it the active one.
A dispose of a voice line clears the active one only when the two match, so a stale dispose that arrives after a newer click changes nothing.

Files:

- `model.dfy` (module `Model`): the DTOs and value types the screens carry. Only an agent's `uuid` is ever read. The rest of each DTO, the origin and ultimate-points records, voice lines, locales and error causes are opaque types.
- `repository.dfy` (module `AgentsRepository`): the lifecycle events of a load (`LoadEvent`) and the repository's lookups. The lookups are arrow-typed fields of a `Repository` value, so they are arbitrary, uninterpreted total functions.
- `agents_view_model.dfy` (module `AgentsFeature`): the list screen's state, the function `Published` (the state each event publishes), the fold `AfterEvents` over a run of callbacks, and the class `AgentsViewModel`.
- `agent_details_view_model.dfy` (module `AgentDetailsFeature`): the details screen's state and intents, `IntentEffect` (the effect of one intent), the fold `ApplyIntents`, the lemmas about the voice-line guard, and the class `AgentDetailsViewModel`.

Each class has a `state` field that stands for `_state.value`.
The base class `BaseNavigationViewModel` is not part of this model.
Its `currentState` and `updateState` are assumed to read and write this same field, and `DispatchIntent` does exactly that.
Each class also has a field that records the loads requested from the repository.
For the list screen this is `loadsRequested`, a count of `getAgents()` calls.
For the details screen it is `requests`, the `(agentId, locale)` pairs passed to `getAgentDetails`.
This makes "construction requests a load" and "an update intent only requests a load" statable.

The declarations of `AgentsScreenState` and `AgentDetailsScreenState` are not modelled.
Their fields follow how the view-models construct and copy them, in the sealed-class shape of `WeaponsScreenState`.
The field `activeVoiceline` is absent from the constructor call of a fresh details Data state, so it is taken to default to none.

`AgentDetailsViewModel` supplies no remote-success handler (AgentDetailsViewModel.kt:26-42), so the model gives it none; see Left out.

## Model

| member | source | states |
|---|---|---|
| AgentsFeature.Uuids | sources/app/src/main/java/com/mikyegresl/valostat/features/agent/AgentsViewModel.kt:39 | the ids have the payload's length, and id i is the uuid of agent i, so order is preserved |
| AgentsFeature.Published | sources/app/src/main/java/com/mikyegresl/valostat/features/agent/AgentsViewModel.kt:24-45 | loading publishes Loading; an error publishes Error with exactly its cause; a local or remote success publishes Data whose list is exactly the payload and whose two lookups are applied to the payload's uuids; no prior state is an input |
| AgentsFeature.LoadedState | sources/app/src/main/java/com/mikyegresl/valostat/features/agent/AgentsViewModel.kt:38-45 | the Data state of a success holds exactly the payload list, and its two lookups are the repository's batch lookups over the payload's uuids |
| AgentsFeature.LocalAndRemoteAgree | sources/app/src/main/java/com/mikyegresl/valostat/features/agent/AgentsViewModel.kt:30-31 | the same payload gives the same state whether it arrives as a local or as a remote success |
| AgentsFeature.LookupsShareIds | sources/app/src/main/java/com/mikyegresl/valostat/features/agent/AgentsViewModel.kt:39-43 | one id list, equal to the payload uuids in order and of the same length, is what both the origin lookup and the ultimate-points lookup receive |
| AgentsFeature.LastEventWins | sources/app/src/main/java/com/mikyegresl/valostat/features/agent/AgentsViewModel.kt:27-44 | with `AfterEvents` as the state after running the callbacks for a list of events in order: after any non-empty run, the state is what the last event publishes, whatever the state was before |
| AgentsFeature.AgentsViewModel.constructor | sources/app/src/main/java/com/mikyegresl/valostat/features/agent/AgentsViewModel.kt:16-22 | before any callback runs the state is Loading, and exactly one load has been requested |
| AgentsFeature.AgentsViewModel.LoadAgents | sources/app/src/main/java/com/mikyegresl/valostat/features/agent/AgentsViewModel.kt:24-26 | a load request adds one subscription to `getAgents()` and does not write the state |
| AgentsFeature.AgentsViewModel.OnLoading | sources/app/src/main/java/com/mikyegresl/valostat/features/agent/AgentsViewModel.kt:27-29 | the state becomes Loading, whatever it was |
| AgentsFeature.AgentsViewModel.OnSuccessLocal | sources/app/src/main/java/com/mikyegresl/valostat/features/agent/AgentsViewModel.kt:31 | the state becomes what `Published` gives for a local success of the payload |
| AgentsFeature.AgentsViewModel.OnSuccessRemote | sources/app/src/main/java/com/mikyegresl/valostat/features/agent/AgentsViewModel.kt:30 | the state becomes what `Published` gives for a remote success of the payload |
| AgentsFeature.AgentsViewModel.OnError | sources/app/src/main/java/com/mikyegresl/valostat/features/agent/AgentsViewModel.kt:32-35 | the state becomes Error carrying exactly the cause, and the error is reported as handled |
| AgentsFeature.AgentsViewModel.ProcessSuccessfulLoad | sources/app/src/main/java/com/mikyegresl/valostat/features/agent/AgentsViewModel.kt:38-45 | the state becomes `LoadedState` of the payload: Data whose list is the payload and whose lookups are the repository's batch lookups over the payload's uuids |
| AgentDetailsFeature.LoadedState | sources/app/src/main/java/com/mikyegresl/valostat/features/agent/details/AgentDetailsViewModel.kt:31-37 | a local success builds a Data state holding the payload, the origin and ultimate points looked up by the payload's own uuid, and no active voice line |
| AgentDetailsFeature.IntentEffect | sources/app/src/main/java/com/mikyegresl/valostat/features/agent/details/AgentDetailsViewModel.kt:44-61 | outside Data and for an update intent nothing changes; the variant, details, origin and ultimate points never change; a click sets the active voice line; a dispose clears it exactly when it equals the disposed one and otherwise leaves it |
| AgentDetailsFeature.IntentRequests | sources/app/src/main/java/com/mikyegresl/valostat/features/agent/details/AgentDetailsViewModel.kt:46-48 | only an update intent requests a load, for exactly its agent id and locale |
| AgentDetailsFeature.ApplyIntents | sources/app/src/main/java/com/mikyegresl/valostat/features/agent/details/AgentDetailsViewModel.kt:44-61 | no sequence of intents changes the variant of the state, and outside Data none changes the state at all |
| AgentDetailsFeature.ClickIdempotent | sources/app/src/main/java/com/mikyegresl/valostat/features/agent/details/AgentDetailsViewModel.kt:49-52 | clicking a voice line twice gives the same state as clicking it once |
| AgentDetailsFeature.ClickThenDispose | sources/app/src/main/java/com/mikyegresl/valostat/features/agent/details/AgentDetailsViewModel.kt:49-58 | click v then dispose w leaves v active when w differs from v and leaves none when w is v |
| AgentDetailsFeature.IntentsKeepLoadedData | sources/app/src/main/java/com/mikyegresl/valostat/features/agent/details/AgentDetailsViewModel.kt:49-58 | from a Data state, any sequence of intents leaves details, origin and ultimate points unchanged |
| AgentDetailsFeature.DisposesOnlyClearTheActive | sources/app/src/main/java/com/mikyegresl/valostat/features/agent/details/AgentDetailsViewModel.kt:54-58 | with no click among the intents, the active voice line is cleared exactly when one of them disposes that very voice line, and otherwise stays as it was |
| AgentDetailsFeature.LastClickDecides | sources/app/src/main/java/com/mikyegresl/valostat/features/agent/details/AgentDetailsViewModel.kt:49-58 | after any history whose last click is v, v is active unless a later intent disposed v itself, in which case none is; stale disposes of other voice lines never clear it |
| AgentDetailsFeature.AgentDetailsViewModel.constructor | sources/app/src/main/java/com/mikyegresl/valostat/features/agent/details/AgentDetailsViewModel.kt:18-24 | the initial state is Loading, and the only load requested is for exactly the constructor's agent id and locale |
| AgentDetailsFeature.AgentDetailsViewModel.LoadAgentDetails | sources/app/src/main/java/com/mikyegresl/valostat/features/agent/details/AgentDetailsViewModel.kt:26-27 | a load request appends its agent id and locale to the requests and does not write the state |
| AgentDetailsFeature.AgentDetailsViewModel.OnLoading | sources/app/src/main/java/com/mikyegresl/valostat/features/agent/details/AgentDetailsViewModel.kt:28-30 | the state becomes Loading, whatever it was |
| AgentDetailsFeature.AgentDetailsViewModel.OnSuccessLocal | sources/app/src/main/java/com/mikyegresl/valostat/features/agent/details/AgentDetailsViewModel.kt:31-37 | the state becomes Data with the payload as details, origin and ultimate points looked up by the payload's own uuid, and no active voice line |
| AgentDetailsFeature.AgentDetailsViewModel.OnError | sources/app/src/main/java/com/mikyegresl/valostat/features/agent/details/AgentDetailsViewModel.kt:38-41 | the state becomes Error carrying exactly the cause, and the error is reported as handled |
| AgentDetailsFeature.AgentDetailsViewModel.DispatchIntent | sources/app/src/main/java/com/mikyegresl/valostat/features/agent/details/AgentDetailsViewModel.kt:44-61 | the new state is `IntentEffect` of the old state and the intent, and the requests grow by exactly `IntentRequests` of the intent |

## Left out

- The `doBackground` subscription and the coroutine and `StateFlow` plumbing: scheduling, the hand-off between execution contexts, and the order in which the repository emits events belong to a base class and a library outside this model. The callbacks are separate methods; `AfterEvents` stands for running them in order.
- `StateFlow` does not notify observers of a value equal to the current one. The model keeps the state value only, not what observers see.
- `AgentDetailsViewModel` on a remote success: the class supplies no handler, and the default handler of its base class is not part of this model.
- The repository's `getAgents`, `getAgentDetails`, `getAgentsOrigin` and `getPointsForUltimate`: they fetch and cache in code outside this model. The lookups are uninterpreted functions, and the loads are recorded as requests.
The lookups are fixed for the life of a view-model, so the model does not capture a caching repository whose answers change between two callbacks.
- The shapes of the lookups' results are assumed. The batch lookups return a mapping from uuid, with unknown uuids absent. The single-uuid lookups return an optional value.
- The `TAG` logging constants: they have no behaviour.
- `SettingsScreen.kt`: Compose layout and a platform locale call, both UI and foreign calls.
- `AgentsModule.kt`: dependency-injection wiring only.
- `WeaponsScreenState.kt`: a type declaration with no behaviour, used only as the shape of the state datatypes.
