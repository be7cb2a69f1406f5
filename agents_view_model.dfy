/** The agent list screen (features/agent/AgentsViewModel.kt): a view-model
    that holds one screen state and overwrites it from the callbacks of the
    repository's `getAgents()` load. */
module AgentsFeature {
  import opened Model
  import opened AgentsRepository

  /** The three modes of the agent list screen (AgentsScreenState). */
  datatype AgentsScreenState =
    | AgentsScreenLoadingState
    | AgentsScreenErrorState(cause: Throwable)
    | AgentsScreenDataState(
        agents: seq<AgentDto>,
        origins: map<Uuid, AgentOrigin>,
        pointsForUltimate: map<Uuid, UltimatePoints>)

  /** `agents.map { it.uuid }`: the identifiers handed to both batch lookups. */
  function Uuids(agents: seq<AgentDto>): (ids: seq<Uuid>)
    ensures |ids| == |agents|
    ensures forall i :: 0 <= i < |agents| ==> ids[i] == agents[i].uuid
  {
    if agents == [] then [] else [agents[0].uuid] + Uuids(agents[1..])
  }

  /** The state one repository event publishes. It takes no prior state:
      every callback replaces the whole state. Local and remote successes
      both go through processSuccessfulLoad. */
  function Published(repository: Repository, event: LoadEvent<seq<AgentDto>>): (s: AgentsScreenState)
    ensures event.Loading? ==> s == AgentsScreenLoadingState
    ensures event.Failed? ==> s == AgentsScreenErrorState(event.cause)
    ensures (event.SuccessLocal? || event.SuccessRemote?) ==>
      && s.AgentsScreenDataState?
      && s.agents == event.payload
      && s.origins == repository.agentsOrigin(Uuids(event.payload))
      && s.pointsForUltimate == repository.pointsForUltimate(Uuids(event.payload))
  {
    match event
    case Loading => AgentsScreenLoadingState
    case SuccessLocal(agents) => LoadedState(repository, agents)
    case SuccessRemote(agents) => LoadedState(repository, agents)
    case Failed(cause) => AgentsScreenErrorState(cause)
  }

  /** The Data state built by processSuccessfulLoad: the list itself plus
      both batch lookups over its uuids. */
  function LoadedState(repository: Repository, agents: seq<AgentDto>): (s: AgentsScreenState)
    ensures s.AgentsScreenDataState? && s.agents == agents
    ensures s.origins == repository.agentsOrigin(Uuids(agents))
    ensures s.pointsForUltimate == repository.pointsForUltimate(Uuids(agents))
  {
    var ids := Uuids(agents);
    AgentsScreenDataState(agents, repository.agentsOrigin(ids), repository.pointsForUltimate(ids))
  }

  /** The same payload yields the same state whether it came from the local
      cache or from the remote source. */
  lemma LocalAndRemoteAgree(repository: Repository, agents: seq<AgentDto>)
    ensures Published(repository, SuccessLocal(agents)) == Published(repository, SuccessRemote(agents))
  {
  }

  /** Both lookups of a success receive one and the same id list: the
      payload's uuids, in payload order. */
  lemma LookupsShareIds(repository: Repository, agents: seq<AgentDto>)
    ensures exists ids: seq<Uuid> ::
      && |ids| == |agents|
      && (forall i :: 0 <= i < |agents| ==> ids[i] == agents[i].uuid)
      && Published(repository, SuccessLocal(agents)).origins == repository.agentsOrigin(ids)
      && Published(repository, SuccessLocal(agents)).pointsForUltimate == repository.pointsForUltimate(ids)
  {
    var ids := Uuids(agents);
    assert Published(repository, SuccessLocal(agents)).origins == repository.agentsOrigin(ids);
  }

  /** The state observed after the callbacks for `events` have run in order,
      starting from `s`. */
  function AfterEvents(repository: Repository, s: AgentsScreenState, events: seq<LoadEvent<seq<AgentDto>>>): AgentsScreenState
    decreases |events|
  {
    if events == [] then s
    else AfterEvents(repository, Published(repository, events[0]), events[1..])
  }

  /** A later publication always replaces an earlier one: after a non-empty
      run of callbacks the state is what the last event publishes, whatever
      the state was before. */
  lemma {:induction false} LastEventWins(repository: Repository, s: AgentsScreenState, events: seq<LoadEvent<seq<AgentDto>>>)
    requires events != []
    ensures AfterEvents(repository, s, events) == Published(repository, events[|events| - 1])
    decreases |events|
  {
    if |events| > 1 {
      LastEventWins(repository, Published(repository, events[0]), events[1..]);
    }
  }

  /** The view-model. `state` is the value of `_state`; the members
      `currentState` and `updateState` of the base class are taken to read
      and write this same field. */
  class AgentsViewModel {
    const repository: Repository
    var state: AgentsScreenState
    /** How many loads have been requested from `repository.getAgents()`. */
    var loadsRequested: nat

    /** The state starts as Loading and construction requests one load. */
    constructor (repository: Repository)
      ensures this.repository == repository
      ensures state == AgentsScreenLoadingState
      ensures loadsRequested == 1
    {
      this.repository := repository;
      state := AgentsScreenLoadingState;
      loadsRequested := 0;
      new;
      LoadAgents();
    }

    /** Subscribes to a new `getAgents()` load; the state is written only by
        the callbacks that load later fires. */
    method LoadAgents()
      modifies this`loadsRequested
      ensures loadsRequested == old(loadsRequested) + 1
    {
      loadsRequested := loadsRequested + 1;
    }

    method OnLoading()
      modifies this`state
      ensures state == Published(repository, Loading)
    {
      state := AgentsScreenLoadingState;
    }

    method OnSuccessLocal(agents: seq<AgentDto>)
      modifies this`state
      ensures state == Published(repository, SuccessLocal(agents))
    {
      ProcessSuccessfulLoad(agents);
    }

    method OnSuccessRemote(agents: seq<AgentDto>)
      modifies this`state
      ensures state == Published(repository, SuccessRemote(agents))
    {
      ProcessSuccessfulLoad(agents);
    }

    /** Publishes the error and reports it as handled. */
    method OnError(cause: Throwable) returns (handled: bool)
      modifies this`state
      ensures state == Published(repository, Failed(cause))
      ensures handled
    {
      state := AgentsScreenErrorState(cause);
      handled := true;
    }

    /** Publishes the Data state for a payload: the list itself plus both
        batch lookups over its uuids. */
    method ProcessSuccessfulLoad(agents: seq<AgentDto>)
      modifies this`state
      ensures state == LoadedState(repository, agents)
    {
      var ids := Uuids(agents);
      state := AgentsScreenDataState(agents, repository.agentsOrigin(ids), repository.pointsForUltimate(ids));
    }
  }
}
