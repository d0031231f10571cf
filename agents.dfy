/** The two agents, reduced to what they can hand back. Their sleep, logging
    and random draw are not modelled: the environment's choice arrives as an
    `AgentEffect`, and dispatch on the agent type turns it into an outcome. */
module Agents {
  import opened Models

  /** What the environment decides for one agent run: it completes (and, for the
      policy checker, the random draw picks "approved" or "rejected"), or it
      raises an exception with the given message. */
  datatype AgentEffect = Completes(picksApproved: bool) | Raises(message: string)

  /** What awaiting `agent.run()` yields: a returned value or a raised error. */
  datatype AgentOutcome = Returned(value: Option<string>) | Raised(message: string)

  const PolicyDecisions: set<string> := {"approved", "rejected"}

  /** The outcomes each agent's contract allows: the policy checker returns one
      of its two decisions, the document extractor returns nothing, and any
      agent may raise. */
  predicate AgentMayProduce(t: AgentType, o: AgentOutcome) {
    match o
    case Raised(_) => true
    case Returned(v) =>
      match t
      case PolicyChecker => v.Some? && v.value in PolicyDecisions
      case DocumentExtractor => v == None
  }

  function PolicyCheckerRun(effect: AgentEffect): (o: AgentOutcome)
    ensures AgentMayProduce(PolicyChecker, o)
    ensures effect.Completes? ==> o == Returned(Some(if effect.picksApproved then "approved" else "rejected"))
  {
    match effect
    case Completes(approved) => Returned(Some(if approved then "approved" else "rejected"))
    case Raises(m) => Raised(m)
  }

  function DocumentExtractorRun(effect: AgentEffect): (o: AgentOutcome)
    ensures AgentMayProduce(DocumentExtractor, o)
    ensures effect.Completes? ==> o == Returned(None)
  {
    match effect
    case Completes(_) => Returned(None)
    case Raises(m) => Raised(m)
  }

  /** Picks the concrete agent for the request's type and runs it. The agent
      type is closed, so there is no unknown-type branch. */
  function RunAgent(t: AgentType, effect: AgentEffect): (o: AgentOutcome)
    ensures AgentMayProduce(t, o)
    ensures o.Raised? <==> effect.Raises?
    ensures effect.Raises? ==> o == Raised(effect.message)
  {
    match t
    case DocumentExtractor => DocumentExtractorRun(effect)
    case PolicyChecker => PolicyCheckerRun(effect)
  }

  /** Every outcome an agent's contract allows is produced by some environment
      choice, so `RunAgent` and `AgentMayProduce` describe the same outcomes. */
  lemma RunAgentCoversContract(t: AgentType, o: AgentOutcome)
    requires AgentMayProduce(t, o)
    ensures exists effect :: RunAgent(t, effect) == o
  {
    match o
    case Raised(m) =>
      assert RunAgent(t, Raises(m)) == o;
    case Returned(v) =>
      match t
      case DocumentExtractor =>
        assert RunAgent(t, Completes(false)) == o;
      case PolicyChecker =>
        var approved := v.value == "approved";
        assert RunAgent(t, Completes(approved)) == o;
  }
}
