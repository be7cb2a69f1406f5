/** What the view-models consume of AgentsRepository: the lifecycle events a
    load emits, and the synchronous lookups keyed by uuid. How the repository
    fetches and caches is not part of this model; its lookups are arbitrary
    (uninterpreted) total functions. */
module AgentsRepository {
  import opened Model

  /** One emission of a repository load: the callbacks `onLoading`,
      `onSuccessLocal`, `onSuccessRemote` and `onError` react to these. */
  datatype LoadEvent<+P> =
    | Loading
    | SuccessLocal(payload: P)
    | SuccessRemote(payload: P)
    | Failed(cause: Throwable)

  /** The repository's lookups. The batch forms take the list of uuids and
      return a mapping in which unknown uuids are absent; the single forms
      take one uuid. */
  datatype Repository = Repository(
    agentsOrigin: seq<Uuid> -> map<Uuid, AgentOrigin>,
    pointsForUltimate: seq<Uuid> -> map<Uuid, UltimatePoints>,
    agentOrigin: Uuid -> Option<AgentOrigin>,
    agentPointsForUltimate: Uuid -> Option<UltimatePoints>
  )
}
