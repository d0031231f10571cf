/** The run lifecycle: a table of status records, a single-slot gate, and the
    four steps submit, start, finish and status lookup. Background execution is
    split into `Start` (the task enters the gate and marks its run RUNNING) and
    `Finish` (the agent's outcome is recorded and the gate is left), so every
    interleaving the event loop can produce is a sequence of these calls. */
module Runner {
  import opened Models
  import opened Agents

  /** The answer to a submit call: the new run's id (HTTP 202) or a refusal
      because an agent holds the gate (HTTP 409). */
  datatype SubmitResult = Accepted(runId: Uuid) | Busy

  /** The answer to a status query: the stored record, or HTTP 404. */
  datatype Lookup = Found(status: AgentStatusResponse) | NotFound

  /** A DONE record holds a value its agent is allowed to return. */
  predicate ResultFitsAgent(t: AgentType, r: AgentStatusResponse) {
    r.state == Done ==> AgentMayProduce(t, Returned(r.result))
  }

  /** Records a finished agent run into its RUNNING record: a returned value
      makes it DONE with that result, a raised error makes it FAILED with the
      error's message. Fields the branch does not assign keep their value. */
  function RecordOutcome(r: AgentStatusResponse, o: AgentOutcome): (r': AgentStatusResponse)
    ensures r'.runId == r.runId && IsTerminal(r'.state)
    ensures r'.state == Done <==> o.Returned?
    ensures o.Returned? ==> r'.result == o.value && r'.error == r.error
    ensures o.Raised? ==> r'.error == Some(o.message) && r'.result == r.result
  {
    match o
    case Returned(v) => r.(state := Done, result := v)
    case Raised(m) => r.(state := Failed, error := Some(m))
  }

  /** Finishing a consistent RUNNING record yields a consistent terminal record
      that is a forward step of the old one, and a DONE record holds what the
      agent is allowed to return. */
  lemma RecordOutcomeAdvances(r: AgentStatusResponse, t: AgentType, o: AgentOutcome)
    requires r.state == Running && Consistent(r) && AgentMayProduce(t, o)
    ensures Consistent(RecordOutcome(r, o))
    ensures RecordAdvances(r, RecordOutcome(r, o))
    ensures ResultFitsAgent(t, RecordOutcome(r, o))
  {
  }

  /** Every record of the old table is still there and has only moved forward. */
  ghost predicate TableAdvances(before: map<Uuid, AgentStatusResponse>, after: map<Uuid, AgentStatusResponse>) {
    && before.Keys <= after.Keys
    && forall id :: id in before ==> RecordAdvances(before[id], after[id])
  }

  lemma TableAdvancesTransitive(a: map<Uuid, AgentStatusResponse>, b: map<Uuid, AgentStatusResponse>, c: map<Uuid, AgentStatusResponse>)
    requires TableAdvances(a, b) && TableAdvances(b, c)
    ensures TableAdvances(a, c)
  {
  }

  /** If every step of a history of tables only moves records forward, then any
      two polls of the same run, in order, see a state that never goes back, and
      a terminal record is seen unchanged by every later poll. */
  lemma {:induction false} PollsMonotonic(history: seq<map<Uuid, AgentStatusResponse>>)
    requires forall k :: 0 <= k < |history| - 1 ==> TableAdvances(history[k], history[k + 1])
    ensures forall i, j :: 0 <= i <= j < |history| ==> TableAdvances(history[i], history[j])
  {
    if |history| > 1 {
      var front := history[..|history| - 1];
      assert forall k :: 0 <= k < |front| ==> front[k] == history[k];
      PollsMonotonic(front);
      var last := |history| - 1;
      forall i, j | 0 <= i <= j < |history|
        ensures TableAdvances(history[i], history[j])
      {
        if j < last {
          assert history[i] == front[i] && history[j] == front[j];
        } else if i == last {
        } else {
          assert history[i] == front[i] && history[last - 1] == front[last - 1];
          TableAdvancesTransitive(history[i], history[last - 1], history[last]);
        }
      }
    }
  }

  class AgentRunner {
    /** The run table, from run id to status record. */
    var runs: map<Uuid, AgentStatusResponse>
    /** Whether the gate is held by a running agent. */
    var busy: bool
    /** Background tasks spawned and not yet finished, with the request each
        one was spawned for. */
    var tasks: map<Uuid, AgentRunRequest>
    /** The run whose task is inside the gate. */
    ghost var holder: Option<Uuid>
    /** The agent type each run was submitted for. */
    ghost var kinds: map<Uuid, AgentType>

    ghost predicate Valid()
      reads this
    {
      && runs.Keys == kinds.Keys
      && tasks.Keys <= runs.Keys
      && (forall id :: id in runs ==>
            && runs[id].runId == id
            && Consistent(runs[id])
            && ResultFitsAgent(kinds[id], runs[id])
            && (id in tasks <==> !IsTerminal(runs[id].state)))
      && (forall id :: id in tasks ==>
            && tasks[id].agentType == kinds[id]
            && runs[id].state == (if holder == Some(id) then Running else Pending))
      && (busy <==> holder.Some?)
      && (holder.Some? ==> holder.value in tasks)
    }

    constructor ()
      ensures Valid()
      ensures runs == map[] && tasks == map[] && !busy
    {
      runs := map[];
      busy := false;
      tasks := map[];
      holder := None;
      kinds := map[];
    }

    /** The status query: the stored record, or NotFound for an unknown id.
        It reads the table and changes nothing. */
    function Get(runId: Uuid): (r: Lookup)
      reads this
      requires Valid()
      ensures r.Found? <==> runId in runs
      ensures r.Found? ==> r.status == runs[runId] && r.status.runId == runId
      ensures r.Found? ==> Consistent(r.status)
    {
      if runId in runs then Found(runs[runId]) else NotFound
    }

    /** Submit a request. Only whether the gate is held right now is checked:
        a run that is still PENDING does not hold it, so a second submit is
        admitted until some task has actually entered the gate. `freshId`
        stands for the new random UUID; it is used only when the submit is
        admitted, and a Busy submit draws no id. */
    method Submit(request: AgentRunRequest, freshId: Uuid) returns (r: SubmitResult)
      requires Valid()
      requires freshId !in runs
      modifies this
      ensures Valid()
      ensures busy == old(busy) && holder == old(holder)
      ensures old(busy) ==> r == Busy && runs == old(runs) && tasks == old(tasks) && kinds == old(kinds)
      ensures !old(busy) ==> && r == Accepted(freshId)
                             && runs == old(runs)[freshId := AgentStatusResponse(freshId, Pending)]
                             && tasks == old(tasks)[freshId := request]
                             && kinds == old(kinds)[freshId := request.agentType]
      ensures r.Accepted? ==> Get(r.runId) == Found(AgentStatusResponse(r.runId, Pending))
      ensures TableAdvances(old(runs), runs)
    {
      if busy {
        return Busy;
      }
      runs := runs[freshId := AgentStatusResponse(freshId, Pending)];
      tasks := tasks[freshId := request];
      kinds := kinds[freshId := request.agentType];
      r := Accepted(freshId);
    }

    /** A spawned task enters the free gate and marks its run RUNNING. */
    method Start(runId: Uuid)
      requires Valid()
      requires !busy && runId in tasks
      modifies this
      ensures Valid()
      ensures busy && holder == Some(runId)
      ensures old(runs)[runId].state == Pending
      ensures runs == old(runs)[runId := old(runs)[runId].(state := Running)]
      ensures tasks == old(tasks) && kinds == old(kinds)
      ensures TableAdvances(old(runs), runs)
    {
      busy := true;
      holder := Some(runId);
      runs := runs[runId := runs[runId].(state := Running)];
    }

    /** The task inside the gate runs the agent its request names, records the
        outcome (DONE with the result, or FAILED with the message) and leaves
        the gate, whatever the outcome. */
    method Finish(runId: Uuid, effect: AgentEffect)
      requires Valid()
      requires holder == Some(runId)
      modifies this
      ensures Valid()
      ensures !busy && holder == None
      ensures tasks == old(tasks) - {runId} && kinds == old(kinds)
      ensures runs == old(runs)[runId := RecordOutcome(old(runs)[runId], RunAgent(old(tasks)[runId].agentType, effect))]
      ensures effect.Completes? ==> && runs[runId].state == Done
                                    && runs[runId].error == None
                                    && AgentMayProduce(old(tasks)[runId].agentType, Returned(runs[runId].result))
      ensures effect.Raises? ==> && runs[runId].state == Failed
                                 && runs[runId].error == Some(effect.message)
                                 && runs[runId].result == None
      ensures TableAdvances(old(runs), runs)
    {
      var request := tasks[runId];
      var outcome := RunAgent(request.agentType, effect);
      RecordOutcomeAdvances(runs[runId], request.agentType, outcome);
      runs := runs[runId := RecordOutcome(runs[runId], outcome)];
      tasks := tasks - {runId};
      busy := false;
      holder := None;
    }
  }
}
