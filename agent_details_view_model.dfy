/** The agent details screen (features/agent/details/AgentDetailsViewModel.kt):
    a view-model for one agent that overwrites its screen state from the
    callbacks of a `getAgentDetails(agentId, locale)` load, and folds user
    intents about the playing voice line into the current Data state. */
module AgentDetailsFeature {
  import opened Model
  import opened AgentsRepository

  /** The three modes of the details screen (AgentDetailsScreenState). A fresh
      Data state has no active voice line. */
  datatype AgentDetailsScreenState =
    | AgentDetailsLoadingState
    | AgentDetailsErrorState(cause: Throwable)
    | AgentDetailsDataState(
        details: AgentDetailsDto,
        origin: Option<AgentOrigin>,
        pointsForUltimate: Option<UltimatePoints>,
        activeVoiceline: Option<Voiceline>)

  /** What the user can ask of the screen (AgentDetailsIntent). */
  datatype AgentDetailsIntent =
    | UpdateAgentDetailsIntent(agentId: string, locale: ValoStatLocale)
    | AudioClickedIntent(voiceline: Voiceline)
    | AudioDisposeIntent(voiceline: Voiceline)

  /** One call of `repository.getAgentDetails(agentId, locale)`. */
  datatype LoadRequest = LoadRequest(agentId: string, locale: ValoStatLocale)

  /** The Data state a local success publishes for a payload. */
  function LoadedState(repository: Repository, details: AgentDetailsDto): (s: AgentDetailsScreenState)
    ensures s.AgentDetailsDataState? && s.details == details && s.activeVoiceline == None
    ensures s.origin == repository.agentOrigin(details.uuid)
    ensures s.pointsForUltimate == repository.agentPointsForUltimate(details.uuid)
  {
    AgentDetailsDataState(
      details,
      repository.agentOrigin(details.uuid),
      repository.agentPointsForUltimate(details.uuid),
      None)
  }

  /** The effect of one intent on the screen state. Intents that need a data
      context do nothing outside Data; a click makes its voice line active;
      a dispose clears the active voice line only if it is the one disposed,
      so a stale dispose that arrives after a newer click is ignored. */
  function IntentEffect(s: AgentDetailsScreenState, intent: AgentDetailsIntent): (r: AgentDetailsScreenState)
    ensures !s.AgentDetailsDataState? ==> r == s
    ensures intent.UpdateAgentDetailsIntent? ==> r == s
    ensures r.AgentDetailsDataState? <==> s.AgentDetailsDataState?
    ensures s.AgentDetailsDataState? ==>
      && r.details == s.details
      && r.origin == s.origin
      && r.pointsForUltimate == s.pointsForUltimate
    ensures s.AgentDetailsDataState? && intent.AudioClickedIntent? ==>
      r.activeVoiceline == Some(intent.voiceline)
    ensures s.AgentDetailsDataState? && intent.AudioDisposeIntent? ==>
      r.activeVoiceline == if s.activeVoiceline == Some(intent.voiceline) then None else s.activeVoiceline
  {
    match intent
    case UpdateAgentDetailsIntent(_, _) => s
    case AudioClickedIntent(v) =>
      if s.AgentDetailsDataState? then s.(activeVoiceline := Some(v)) else s
    case AudioDisposeIntent(v) =>
      if s.AgentDetailsDataState? && s.activeVoiceline == Some(v) then s.(activeVoiceline := None) else s
  }

  /** The loads an intent asks of the repository: only an update does. */
  function IntentRequests(intent: AgentDetailsIntent): (reqs: seq<LoadRequest>)
    ensures intent.UpdateAgentDetailsIntent? ==> reqs == [LoadRequest(intent.agentId, intent.locale)]
    ensures !intent.UpdateAgentDetailsIntent? ==> reqs == []
  {
    match intent
    case UpdateAgentDetailsIntent(agentId, locale) => [LoadRequest(agentId, locale)]
    case _ => []
  }

  /** The state after the intents have been dispatched in order from `s`.
      No sequence of intents changes the mode of the screen, and outside
      Data none changes anything. */
  function ApplyIntents(s: AgentDetailsScreenState, intents: seq<AgentDetailsIntent>): (r: AgentDetailsScreenState)
    ensures r.AgentDetailsDataState? <==> s.AgentDetailsDataState?
    ensures !s.AgentDetailsDataState? ==> r == s
    decreases |intents|
  {
    if intents == [] then s else ApplyIntents(IntentEffect(s, intents[0]), intents[1..])
  }

  /** True if no intent of `intents` is a click. */
  predicate NoClicks(intents: seq<AgentDetailsIntent>)
  {
    forall i :: 0 <= i < |intents| ==> !intents[i].AudioClickedIntent?
  }

  /** Clicking the same voice line twice is the same as clicking it once. */
  lemma ClickIdempotent(s: AgentDetailsScreenState, v: Voiceline)
    ensures IntentEffect(IntentEffect(s, AudioClickedIntent(v)), AudioClickedIntent(v))
         == IntentEffect(s, AudioClickedIntent(v))
  {
  }

  /** Click then dispose: disposing another voice line leaves the clicked one
      active, disposing the clicked one leaves none. */
  lemma ClickThenDispose(s: AgentDetailsScreenState, v: Voiceline, w: Voiceline)
    requires s.AgentDetailsDataState?
    ensures ApplyIntents(s, [AudioClickedIntent(v), AudioDisposeIntent(w)]).activeVoiceline
         == if w == v then None else Some(v)
  {
    var clicked := IntentEffect(s, AudioClickedIntent(v));
    assert [AudioClickedIntent(v), AudioDisposeIntent(w)][1..] == [AudioDisposeIntent(w)];
    assert ApplyIntents(s, [AudioClickedIntent(v), AudioDisposeIntent(w)])
        == ApplyIntents(clicked, [AudioDisposeIntent(w)]);
    assert ApplyIntents(clicked, [AudioDisposeIntent(w)]) == IntentEffect(clicked, AudioDisposeIntent(w));
  }

  /** Dispatching intents in two batches is dispatching them in one. */
  lemma {:induction false} ApplyIntentsAppend(s: AgentDetailsScreenState, a: seq<AgentDetailsIntent>, b: seq<AgentDetailsIntent>)
    ensures ApplyIntents(s, a + b) == ApplyIntents(ApplyIntents(s, a), b)
    decreases |a|
  {
    if a == [] {
      assert a + b == b;
    } else {
      assert (a + b)[0] == a[0];
      assert (a + b)[1..] == a[1..] + b;
      ApplyIntentsAppend(IntentEffect(s, a[0]), a[1..], b);
    }
  }

  /** No sequence of intents changes the loaded agent data: intents only
      ever touch the active voice line. */
  lemma {:induction false} IntentsKeepLoadedData(s: AgentDetailsScreenState, intents: seq<AgentDetailsIntent>)
    requires s.AgentDetailsDataState?
    ensures
      && ApplyIntents(s, intents).details == s.details
      && ApplyIntents(s, intents).origin == s.origin
      && ApplyIntents(s, intents).pointsForUltimate == s.pointsForUltimate
    decreases |intents|
  {
    if intents != [] {
      IntentsKeepLoadedData(IntentEffect(s, intents[0]), intents[1..]);
    }
  }

  /** Without clicks, the active voice line can only be cleared, and it is
      cleared exactly when some intent disposes of that very voice line. */
  lemma {:induction false} DisposesOnlyClearTheActive(s: AgentDetailsScreenState, intents: seq<AgentDetailsIntent>)
    requires s.AgentDetailsDataState?
    requires NoClicks(intents)
    ensures ApplyIntents(s, intents).activeVoiceline ==
      if s.activeVoiceline.Some? && AudioDisposeIntent(s.activeVoiceline.value) in intents
      then None else s.activeVoiceline
    decreases |intents|
  {
    if intents != [] {
      var next := IntentEffect(s, intents[0]);
      assert NoClicks(intents[1..]) by {
        forall i | 0 <= i < |intents[1..]| ensures !intents[1..][i].AudioClickedIntent? {
          assert intents[1..][i] == intents[i + 1];
        }
      }
      DisposesOnlyClearTheActive(next, intents[1..]);
      assert intents == [intents[0]] + intents[1..];
      if s.activeVoiceline.Some? {
        var a := s.activeVoiceline.value;
        assert AudioDisposeIntent(a) in intents <==>
          intents[0] == AudioDisposeIntent(a) || AudioDisposeIntent(a) in intents[1..];
      }
    }
  }

  /** The stale-dispose guard over a whole history: after any intents that
      end with a click of `v` followed by no further click, `v` is still
      active unless one of the later intents disposed of `v` itself. */
  lemma LastClickDecides(
    s: AgentDetailsScreenState, before: seq<AgentDetailsIntent>, v: Voiceline, after: seq<AgentDetailsIntent>)
    requires s.AgentDetailsDataState?
    requires NoClicks(after)
    ensures ApplyIntents(s, before + [AudioClickedIntent(v)] + after).activeVoiceline ==
      if AudioDisposeIntent(v) in after then None else Some(v)
  {
    ApplyIntentsAppend(s, before + [AudioClickedIntent(v)], after);
    ApplyIntentsAppend(s, before, [AudioClickedIntent(v)]);
    var mid := ApplyIntents(s, before);
    IntentsKeepLoadedData(s, before);
    assert ApplyIntents(mid, [AudioClickedIntent(v)]) == IntentEffect(mid, AudioClickedIntent(v));
    DisposesOnlyClearTheActive(IntentEffect(mid, AudioClickedIntent(v)), after);
  }

  /** The view-model for one agent. `state` is the value of `_state`; the
      members `currentState` and `updateState` of the base class are taken to
      read and write this same field. `requests` lists the loads asked of the
      repository, oldest first. */
  class AgentDetailsViewModel {
    const repository: Repository
    var state: AgentDetailsScreenState
    var requests: seq<LoadRequest>

    /** The state starts as Loading and construction requests the load of
        exactly the given agent in the given locale. */
    constructor (repository: Repository, agentId: string, locale: ValoStatLocale)
      ensures this.repository == repository
      ensures state == AgentDetailsLoadingState
      ensures requests == [LoadRequest(agentId, locale)]
    {
      this.repository := repository;
      state := AgentDetailsLoadingState;
      requests := [];
      new;
      LoadAgentDetails(agentId, locale);
    }

    /** Subscribes to a new `getAgentDetails(agentId, locale)` load; the state
        is written only by the callbacks that load later fires. */
    method LoadAgentDetails(agentId: string, locale: ValoStatLocale)
      modifies this`requests
      ensures requests == old(requests) + [LoadRequest(agentId, locale)]
    {
      requests := requests + [LoadRequest(agentId, locale)];
    }

    method OnLoading()
      modifies this`state
      ensures state == AgentDetailsLoadingState
    {
      state := AgentDetailsLoadingState;
    }

    /** Publishes the payload with the origin and ultimate points looked up
        by the payload's own uuid, and no active voice line. */
    method OnSuccessLocal(details: AgentDetailsDto)
      modifies this`state
      ensures state == LoadedState(repository, details)
    {
      state := AgentDetailsDataState(
        details,
        repository.agentOrigin(details.uuid),
        repository.agentPointsForUltimate(details.uuid),
        None);
    }

    /** Publishes the error and reports it as handled. */
    method OnError(cause: Throwable) returns (handled: bool)
      modifies this`state
      ensures state == AgentDetailsErrorState(cause)
      ensures handled
    {
      state := AgentDetailsErrorState(cause);
      handled := true;
    }

    /** Folds one intent into the current state; an update intent leaves the
        state alone and only requests a new load. */
    method DispatchIntent(intent: AgentDetailsIntent)
      modifies this`state, this`requests
      ensures state == IntentEffect(old(state), intent)
      ensures requests == old(requests) + IntentRequests(intent)
    {
      match intent
      case UpdateAgentDetailsIntent(agentId, locale) =>
        LoadAgentDetails(agentId, locale);
      case AudioClickedIntent(v) =>
        if state.AgentDetailsDataState? {
          state := state.(activeVoiceline := Some(v));
        }
      case AudioDisposeIntent(v) =>
        if !state.AgentDetailsDataState? {
          return;
        }
        var dataState := state;
        if dataState.activeVoiceline == Some(v) {
          state := dataState.(activeVoiceline := None);
        }
    }
  }
}
