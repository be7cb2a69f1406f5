/** The data the agent screens consume (package base.model of the application).
    Only the `uuid` of an agent is ever read by the view-models; everything else
    a DTO carries is kept as an uninterpreted body type. */
module Model {

  datatype Option<+T> = None | Some(value: T)

  /** An agent's identifier as the backend reports it. */
  type Uuid = string

  /** Parts of the DTOs the view-models pass through without looking inside. */
  type AgentBody
  type AgentDetailsBody

  /** An entry of the agent list (AgentDto). */
  datatype AgentDto = AgentDto(uuid: Uuid, body: AgentBody)

  /** The full description of one agent (the payload of getAgentDetails). */
  datatype AgentDetailsDto = AgentDetailsDto(uuid: Uuid, body: AgentDetailsBody)

  /** Auxiliary per-agent information looked up by uuid. */
  type AgentOrigin
  type UltimatePoints

  /** A voice line of an agent; intents compare them for equality. */
  type Voiceline(==)

  /** ValoStatLocale: the display locale a load is requested for. */
  type ValoStatLocale(==)

  /** The cause a failed load carries (a Kotlin Throwable). */
  type Throwable
}
