/** The coordination decision and the selection of the one agent gateway that
    answers it. */
module Dispatch {
  import opened Messages

  /** The agent named by a decision. `Unrecognized` stands for any value outside
      the enumeration, which the coordinator checks for defensively. */
  datatype AgentName = GPA | UMS | Unrecognized(raw: string)

  /** An already-parsed coordination request. */
  datatype Decision = Decision(agentName: AgentName, additionalInstructions: string)

  /** The two agent backends: the general-purpose agent and the
      user-management-service agent. */
  datatype Gateway = GPAGateway | UMSGateway

  const UnknownAgent := ValueError("Unknown Agent")

  /** How the agent name is rendered inside a stage title: the enumeration's
      value for a known agent, the raw text otherwise. */
  function Label(name: AgentName): (s: string)
    ensures name.GPA? ==> s == "GPA"
    ensures name.UMS? ==> s == "UMS"
    ensures name.Unrecognized? ==> s == name.raw
  {
    match name
    case GPA => "GPA"
    case UMS => "UMS"
    case Unrecognized(s) => s
  }

  /** The exhaustive match of the dispatcher: each known name selects exactly
      its own gateway, and every other value is the error raised before any
      gateway exists. */
  function SelectGateway(name: AgentName): (r: Result<Gateway>)
    ensures r == Success(GPAGateway) <==> name == GPA
    ensures r == Success(UMSGateway) <==> name == UMS
    ensures r.Failure? <==> name.Unrecognized?
    ensures r.Failure? ==> r.error == UnknownAgent
  {
    match name
    case GPA => Success(GPAGateway)
    case UMS => Success(UMSGateway)
    case Unrecognized(_) => Failure(UnknownAgent)
  }
}
