/** Client-side runs of the lifecycle on a fresh runner: what a caller can
    conclude from the contracts of `Submit`, `Start`, `Finish` and `Get` alone. */
module Scenarios {
  import opened Models
  import opened Agents
  import opened Runner

  /** Submit a policy check, let it run and poll it: the run is accepted under
      the new id, is PENDING right after submit, RUNNING once started, and ends
      DONE with "approved" or "rejected" and no error. */
  method PolicyCheckHappyPath(user: Uuid, runId: Uuid, picksApproved: bool)
    returns (submitted: SubmitResult, afterSubmit: Lookup, afterStart: Lookup, final: Lookup)
    ensures submitted == Accepted(runId)
    ensures afterSubmit == Found(AgentStatusResponse(runId, Pending))
    ensures afterStart.Found? && afterStart.status.state == Running
    ensures final.Found? && final.status.state == Done && final.status.error == None
    ensures final.status.result.Some? && final.status.result.value in PolicyDecisions
  {
    var runner := new AgentRunner();
    submitted := runner.Submit(AgentRunRequest(PolicyChecker, user), runId);
    afterSubmit := runner.Get(runId);
    runner.Start(runId);
    afterStart := runner.Get(runId);
    runner.Finish(runId, Completes(picksApproved));
    final := runner.Get(runId);
  }

  /** While a document extraction is running, a second submit is refused with
      Busy and creates no entry; once the first run is DONE with no result,
      the gate is free and a new submit is admitted. */
  method BusyWhileRunning(user: Uuid, first: Uuid, second: Uuid)
    returns (r1: SubmitResult, r2: SubmitResult, secondLookup: Lookup, firstFinal: Lookup, r3: SubmitResult)
    requires first != second
    ensures r1 == Accepted(first)
    ensures r2 == Busy && secondLookup == NotFound
    ensures firstFinal == Found(AgentStatusResponse(first, Done))
    ensures r3 == Accepted(second)
  {
    var runner := new AgentRunner();
    r1 := runner.Submit(AgentRunRequest(DocumentExtractor, user), first);
    runner.Start(first);
    r2 := runner.Submit(AgentRunRequest(DocumentExtractor, user), second);
    secondLookup := runner.Get(second);
    runner.Finish(first, Completes(false));
    firstFinal := runner.Get(first);
    r3 := runner.Submit(AgentRunRequest(DocumentExtractor, user), second);
  }

  /** The gate is only peeked at submit time and taken when a task starts, so
      two submits in a row are both admitted while the first is still PENDING.
      The two tasks then run one after the other: here the first agent raises
      and its run is FAILED with the message, and the second completes. */
  method SubmitBeforeStartIsAdmitted(user: Uuid, first: Uuid, second: Uuid, message: string)
    returns (r1: SubmitResult, r2: SubmitResult, bothPending: bool, firstFinal: Lookup, secondFinal: Lookup)
    requires first != second
    ensures r1 == Accepted(first) && r2 == Accepted(second)
    ensures bothPending
    ensures firstFinal == Found(AgentStatusResponse(first, Failed, error := Some(message)))
    ensures secondFinal == Found(AgentStatusResponse(second, Done, result := Some("approved")))
  {
    var runner := new AgentRunner();
    r1 := runner.Submit(AgentRunRequest(PolicyChecker, user), first);
    r2 := runner.Submit(AgentRunRequest(PolicyChecker, user), second);
    bothPending := runner.Get(first).status.state == Pending && runner.Get(second).status.state == Pending;
    runner.Start(first);
    runner.Finish(first, Raises(message));
    runner.Start(second);
    runner.Finish(second, Completes(true));
    firstFinal := runner.Get(first);
    secondFinal := runner.Get(second);
  }

  /** An unknown agent type such as "banana" is refused before any request
      exists, so nothing reaches the runner. */
  lemma UnknownAgentTypeRefused(user: Uuid)
    ensures ValidateRequest("banana", user) == Failure(UnknownAgentType("banana"))
    ensures ValidateRequest("policy-checker", user) == Success(AgentRunRequest(PolicyChecker, user))
  {
  }
}
