/** The data vocabulary of the agent runner: agent kinds and run states with
    their wire strings, the run request, and the status record kept per run. */
module Models {

  datatype Option<+T> = None | Some(value: T)

  datatype Result<+T, +E> = Success(value: T) | Failure(error: E)

  /** A UUID is a 128-bit number. */
  const UuidSpace: nat := 0x1_0000_0000_0000_0000_0000_0000_0000_0000

  type Uuid = x: nat | x < UuidSpace

  // ---------------------------------------------------------------------------
  // AgentType: a closed enumeration whose members travel as strings

  datatype AgentType = DocumentExtractor | PolicyChecker

  /** The wire string of an agent type: one of two tags, one per member. */
  function AgentTypeTag(t: AgentType): (s: string)
    ensures s in {"document-extractor", "policy-checker"}
    ensures (s == "policy-checker") <==> t == PolicyChecker
  {
    match t
    case DocumentExtractor => "document-extractor"
    case PolicyChecker => "policy-checker"
  }

  /** Reads an agent type from its wire string; any other string is refused. */
  function ParseAgentType(s: string): (r: Option<AgentType>)
    ensures r.Some? <==> (s == "document-extractor" || s == "policy-checker")
    ensures forall t: AgentType :: r == Some(t) <==> AgentTypeTag(t) == s
  {
    if s == "document-extractor" then Some(DocumentExtractor)
    else if s == "policy-checker" then Some(PolicyChecker)
    else None
  }

  /** Printing and then parsing an agent type gives the same agent type back. */
  lemma AgentTypeRoundTrip(t: AgentType)
    ensures ParseAgentType(AgentTypeTag(t)) == Some(t)
  {
  }

  /** Parsing and then printing a wire string gives the same string back. */
  lemma AgentTypeTagRoundTrip(s: string)
    requires ParseAgentType(s).Some?
    ensures AgentTypeTag(ParseAgentType(s).value) == s
  {
  }

  // ---------------------------------------------------------------------------
  // RunState: the lifecycle PENDING -> RUNNING -> DONE | FAILED

  datatype RunState = Pending | Running | Done | Failed

  /** The wire string of a run state: one of four strings, each naming its
      own state. */
  function RunStateTag(st: RunState): (s: string)
    ensures s in {"PENDING", "RUNNING", "DONE", "FAILED"}
    ensures (s == "PENDING") <==> st == Pending
    ensures (s == "RUNNING") <==> st == Running
    ensures (s == "DONE") <==> st == Done
  {
    match st
    case Pending => "PENDING"
    case Running => "RUNNING"
    case Done => "DONE"
    case Failed => "FAILED"
  }

  /** Reads a run state from its wire string; any other string is refused. */
  function ParseRunState(s: string): (r: Option<RunState>)
    ensures r.Some? <==> s in {"PENDING", "RUNNING", "DONE", "FAILED"}
    ensures forall st: RunState :: r == Some(st) <==> RunStateTag(st) == s
  {
    if s == "PENDING" then Some(Pending)
    else if s == "RUNNING" then Some(Running)
    else if s == "DONE" then Some(Done)
    else if s == "FAILED" then Some(Failed)
    else None
  }

  /** The four run states have four different wire strings. */
  lemma RunStateTagsDistinct(a: RunState, b: RunState)
    ensures RunStateTag(a) == RunStateTag(b) ==> a == b
  {
  }

  predicate IsTerminal(st: RunState) {
    st == Done || st == Failed
  }

  /** Position of a state in the lifecycle; both terminal states share the last one. */
  function Rank(st: RunState): (n: nat)
    ensures n <= 2
    ensures (n == 2) <==> IsTerminal(st)
    ensures (n == 0) <==> st == Pending
  {
    match st
    case Pending => 0
    case Running => 1
    case Done => 2
    case Failed => 2
  }

  // ---------------------------------------------------------------------------
  // Requests and status records

  /** The body of a submit call: exactly one agent type and one user id. */
  datatype AgentRunRequest = AgentRunRequest(agentType: AgentType, userId: Uuid)

  /** Why a request body is refused before it reaches the runner (HTTP 422). */
  datatype ValidationError = UnknownAgentType(given: string)

  /** Request validation: the agent type arrives as a string and must be one of
      the two known tags, otherwise no request exists. */
  function ValidateRequest(agentType: string, userId: Uuid): (r: Result<AgentRunRequest, ValidationError>)
    ensures r.Success? <==> ParseAgentType(agentType).Some?
    ensures r.Success? ==> AgentTypeTag(r.value.agentType) == agentType && r.value.userId == userId
    ensures r.Failure? ==> r.error == UnknownAgentType(agentType)
  {
    match ParseAgentType(agentType)
    case Some(t) => Success(AgentRunRequest(t, userId))
    case None => Failure(UnknownAgentType(agentType))
  }

  /** The status record of one run. It carries its own run id; `result` and
      `error` are absent unless given. */
  datatype AgentStatusResponse = AgentStatusResponse(
    runId: Uuid,
    state: RunState,
    result: Option<string> := None,
    error: Option<string> := None)

  /** A result is present only in DONE, an error only in FAILED, and a FAILED
      record always says why. */
  predicate Consistent(r: AgentStatusResponse) {
    && (r.result.Some? ==> r.state == Done)
    && (r.error.Some? ==> r.state == Failed)
    && (r.state == Failed ==> r.error.Some?)
  }

  /** A record built from an id and a state alone has neither result nor error,
      and is consistent unless that state is FAILED. */
  lemma FreshRecordDefaults(runId: Uuid, st: RunState)
    ensures AgentStatusResponse(runId, st).result == None
    ensures AgentStatusResponse(runId, st).error == None
    ensures AgentStatusResponse(runId, st).runId == runId
    ensures Consistent(AgentStatusResponse(runId, st)) <==> st != Failed
  {
  }

  /** A record may only move forward in the lifecycle, keeps its run id, and is
      frozen once terminal. */
  predicate RecordAdvances(a: AgentStatusResponse, b: AgentStatusResponse) {
    && a.runId == b.runId
    && Rank(a.state) <= Rank(b.state)
    && (IsTerminal(a.state) ==> b == a)
  }

  lemma RecordAdvancesTransitive(a: AgentStatusResponse, b: AgentStatusResponse, c: AgentStatusResponse)
    requires RecordAdvances(a, b) && RecordAdvances(b, c)
    ensures RecordAdvances(a, c)
  {
  }
}
