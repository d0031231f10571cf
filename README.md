# Agent runner: run lifecycle model

This project models the core of a small asynchronous job runner. A client submits a request to run one of two agents (`document-extractor` or `policy-checker`). The server admits at most one running agent at a time through a single-slot gate (an `asyncio.Lock`). It executes the agent in a background task and records the run's progress in an in-memory table that clients poll.

The model has four modules:

- `Models` (`models.dfy`): the data vocabulary of `core/models.py`.
  - The closed enumerations `AgentType` and `RunState`, with their wire strings and total parse functions.
  - The request `AgentRunRequest` and the validation that refuses an unknown agent type.
  - The status record `AgentStatusResponse`, whose `result` and `error` default to absent, as in the source.
  - The consistency predicate for records and the "only moves forward" relation `RecordAdvances`.
- `Agents` (`agents.dfy`): what each agent can hand back.
  - The environment's choice (complete, with the random pick, or raise) arrives as an `AgentEffect`.
  - `RunAgent` dispatches on the agent type.
  - `AgentMayProduce` is the contract of the agents. A lemma shows that the two describe the same outcomes.
- `Runner` (`runner.dfy`): `main.py` as the class `AgentRunner`.
  - `runs: map<Uuid, AgentStatusResponse>` is the run table.
  - `busy: bool` stands for `agent_lock.locked()`.
  - `tasks` holds the background tasks that were spawned and have not finished, each with the request it captured.
  - Two ghost fields record which run's task holds the gate and which agent type each run was submitted for.
  - `Submit`, `Start`, `Finish` and `Get` are the operations. Background execution is split into `Start` (enter the gate, mark RUNNING) and `Finish` (run the agent, record DONE or FAILED, leave the gate). Every interleaving the event loop can produce is therefore a sequence of calls.
  - `Valid()` is the invariant every operation keeps:
    - a result is present only in DONE, and an error only in FAILED;
    - every FAILED record has an error;
    - a DONE policy check holds "approved" or "rejected", and a DONE document extraction holds no result;
    - a run is unfinished exactly when its task still exists;
    - only the gate holder's run is RUNNING;
    - the gate is held exactly when some task is inside it.
  - Every operation also promises `TableAdvances(old(runs), runs)`. `PollsMonotonic` lifts that to any history of polls.
- `Scenarios` (`scenarios.dfy`): client methods on a fresh runner that derive concrete runs from the contracts alone. They cover the happy path, Busy while running, the check-then-act gap, and the refusal of `"banana"`.

The check-then-act gap is kept. `Submit` only peeks at `busy`, and the gate is taken only in `Start`. So a run that is still PENDING does not block another submit. `SubmitBeforeStartIsAdmitted` shows two submits in a row both admitted. The two tasks then run one after the other.

Three behaviours of the code shape the model:

- A completed document extraction is DONE with neither result nor error (`main.py:53-55` stores its `None`). So `Consistent` does not require exactly one of them to be present.
- A PENDING run does not block a submit: `main.py:21` only peeks at the lock, and the task takes it at `main.py:42`.
- `main.py:27` would overwrite an entry under a duplicate id. `Submit` therefore takes the new id as a parameter that is not yet in the table, which is the role of `uuid4()`. The id is used only when the submit is admitted.

Inputs that come from outside the model:

- The new UUID is the `freshId` argument of `Submit`.
- The agent's random pick and any exception it raises are the `AgentEffect` argument of `Finish`.
- The moment the event loop resumes a task is the caller's choice of when to call `Start` and `Finish`.

## Model

| member | source | states |
|---|---|---|
| `Models.AgentTypeTag` | core/models.py:6-7 | Every agent type's wire string is "document-extractor" or "policy-checker", and "policy-checker" is exactly the policy checker's |
| `Models.ParseAgentType` | core/models.py:5-7 | A string parses to an agent type exactly when it is "document-extractor" or "policy-checker", and it parses to `t` exactly when it is `t`'s wire tag |
| `Models.AgentTypeRoundTrip` | core/models.py:5-7 | Parsing the wire tag of an agent type gives that agent type back |
| `Models.AgentTypeTagRoundTrip` | core/models.py:5-7 | A string that parses prints back as itself |
| `Models.RunStateTag` | core/models.py:11-14 | Every run state's wire string is one of PENDING, RUNNING, DONE, FAILED, and each of these names exactly its own state |
| `Models.ParseRunState` | core/models.py:10-14 | A string parses to a run state exactly when it is one of PENDING, RUNNING, DONE, FAILED, and it parses to `st` exactly when it is `st`'s wire string |
| `Models.RunStateTagsDistinct` | core/models.py:10-14 | The four run states have four different wire strings |
| `Models.Rank` | core/models.py:10-14 | The lifecycle order: PENDING is first, and exactly DONE and FAILED share the last, terminal position |
| `Models.ValidateRequest` | core/models.py:17-19 | A request exists exactly when the agent type string is a known tag; it then carries that agent type and the given user id; otherwise the unknown tag is reported |
| `Models.FreshRecordDefaults` | core/models.py:22-26 | A record built from an id and a state has no result and no error, carries that id, and is consistent unless the state is FAILED |
| `Models.RecordAdvancesTransitive` | main.py:43-61 | Two forward steps of a record compose into one forward step |
| `Agents.PolicyCheckerRun` | agents/policy_checker.py:11-13 | The policy checker returns "approved" or "rejected" according to the random pick, or raises |
| `Agents.DocumentExtractorRun` | agents/document_extractor.py:12 | The document extractor returns nothing, or raises |
| `Agents.RunAgent` | main.py:46-53 | Dispatch on the agent type yields an outcome the chosen agent's contract allows; it raises exactly when the environment makes the agent raise, with that message |
| `Agents.RunAgentCoversContract` | main.py:46-53 | Every outcome an agent's contract allows is produced by some environment choice |
| `Runner.RecordOutcome` | main.py:53-61 | A returned value makes the record DONE with that result and the error untouched; a raised error makes it FAILED with the message and the result untouched; the run id is kept |
| `Runner.RecordOutcomeAdvances` | main.py:53-61 | Finishing a consistent RUNNING record gives a consistent terminal record that is a forward step, and a DONE record holds a value its agent may return |
| `Runner.TableAdvancesTransitive` | main.py:27-61 | Two forward steps of the run table compose into one |
| `Runner.PollsMonotonic` | main.py:64-68 | In a history of tables where every step only moves records forward, every later poll sees every earlier entry, in the same or a later state, and a terminal record unchanged |
| `Runner.AgentRunner.constructor` | main.py:14 | The runner starts with an empty run table, no tasks and a free gate |
| `Runner.AgentRunner.Get` | main.py:64-68 | The stored record, carrying its own id, exactly when the id is in the table, and NotFound otherwise; reads the table and changes nothing |
| `Runner.AgentRunner.Submit` | main.py:17-32 | If the gate is held: Busy, with table and tasks unchanged. Otherwise the new id is returned, exactly one PENDING entry with no result or error is added under it, one task is spawned for the request, and nothing else changes. `Get` on the returned id then yields that PENDING record. The gate is not taken |
| `Runner.AgentRunner.Start` | main.py:42-43 | With the gate free, a spawned task takes it, and only its run changes, from PENDING to RUNNING |
| `Runner.AgentRunner.Finish` | main.py:42-61 | The gate holder's run becomes DONE with the agent's value and no error, or FAILED with the message and no result; its task ends; the gate is released in both cases; no other entry changes |
| `Scenarios.PolicyCheckHappyPath` | tests/test_api.py:8-24 | A submitted policy check is accepted, PENDING, then RUNNING, and ends DONE with "approved" or "rejected" and no error |
| `Scenarios.BusyWhileRunning` | main.py:21-32 | A submit while an agent runs is Busy and creates no entry; after that run is DONE with no result, a submit is admitted again |
| `Scenarios.SubmitBeforeStartIsAdmitted` | main.py:21-43 | Two submits before either task starts are both admitted; the runs then execute one after the other, one FAILED with its message and one DONE with its result |
| `Scenarios.UnknownAgentTypeRefused` | core/models.py:17-19 | "banana" is refused as an unknown agent type, and "policy-checker" yields a request |

## Left out

- HTTP routing, status codes and JSON serialisation: the outcomes are the values `Accepted`, `Busy`, `NotFound` and `ValidationError`. The codes 202, 409, 404 and 422 appear only in comments.
- `uuid4()`: modelled as a caller-supplied id not yet in the table. UUID validation of the `user_id` field is not modelled, because the request's user id is a `Uuid` by type.
- `asyncio.create_task`, the event loop, and the lock's queueing and fairness: modelled as the `tasks` map plus separate `Start` and `Finish` steps. `Start` requires the gate to be free, because a task waiting on a held lock does not move. Which waiting task the lock wakes first is left to the caller.
- The two field assignments at `main.py:54-55` and `main.py:60-61`: modelled as one record update, because no `await` separates them and no poll can run in between.
- In-place mutation of the record object: the table's values are immutable records, and a poll returns a copy. The source returns the live object, but it is serialised before any other task runs.
- `except Exception` does not catch `BaseException` subclasses such as `asyncio.CancelledError`. Cancellation is not supported by the system and is not modelled.
- The unreachable `else` branch at `main.py:50-51` (an unknown agent type): `AgentType` is closed, so the dispatch has no such case.
- `asyncio.sleep`, `random.choice` and the structlog calls in the agents: the agent's result is the `AgentEffect` input of `Finish`.
- Logging configuration (`core/logger.py`), settings loading (`config.py`) and the abstract agent base class (`agents/base.py`) have no behaviour to model. `core/lock.py` is not part of this model; the gate is taken to be a plain `asyncio.Lock`.
- Liveness: that every admitted run eventually reaches a terminal state depends on the event loop and on agents returning. The model states it only for the concrete runs in `Scenarios`.
- Process restarts and the unbounded growth of the run table are not modelled.
