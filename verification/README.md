# Verified model of Aegis

Aegis is an incident-response platform: signals are grouped into incidents, agents diagnose them and
propose a plan of catalog actions, a policy decision point (PDP) records a human's signed decision, and
an executor carries the plan out behind an idempotency ledger, compensating in reverse when a step
fails.  This project models the distributed action path and the deterministic kernels around it in
Dafny 4.11 and proves what they guarantee over every input, every interleaving and every run.
`dafny verify dfyconfig.toml` checks all of it.

Where the source updates state, the model does too: the audit log, the breaker, the budget, the
consume loop, detection, the agent run, the plan store and the action path are classes whose methods
are proved against functions on values; the results about runs are lemmas over those functions.

| module | models |
|---|---|
| Audit, AuditConcurrency | the hash chain, its verification, and appenders that race without a lock |
| Remediation, RemediationSafety, RemediationResults, RemediationRuns | PDP, an untrusted topic and the executor as one transition system with duplication, failing units of work and crashes; its invariant; what follows; runs in parts |
| RemediationAuthority | what it takes for every call to be authorized |
| RemediationOnce | exactly when a step can be applied twice under one key |
| ActionPath, Compensation, HandlerRuns | the code of the PDP and the executor, each unit of work refined to one step of that system; what a failing run leaves of the infrastructure; runs that a handler can really make |
| DecisionRace | several sessions that decide one plan at the same time |
| Topology, Correlation, Detection, DetectionHistory, Sorting | correlation of signals and the incident tables it builds |
| Reliability, BreakerRate, Budgets | circuit breaker, its rate bound, per-incident budget |
| Windows, Chunking | overlapping windows and chunking by headings |
| Consumer | the consume loop: positions, commits, failures, restarts |
| AgentGraph, AgentSafety | the agent workflow and what every run of it guarantees |
| Retrieval, PlanStore, PlanHistory, Policy, Autonomy | the chain of gates from the vector store's hits to the PDP's dispositions, across the stored plan |

## Assumptions

- A unit of work (`session_scope`, src/aegis_common/db.py:44-55) is one atomic, all-or-nothing step;
  every runtime call is a step of its own.
- An incident has at most one executor handler at a time.  The key of the topic does not give this, as
  a message need not carry its incident as its key; it rests on the executor running as one replica
  (deploy/k8s/deployments-workers.yaml:105) that handles one message after the other.  An incident has
  one orchestrator delivery at a time because its events carry its id as their key.
- SHA-256 and the sorted JSON encoding are arbitrary functions, the first into texts of 64 characters;
  no injectivity is assumed, claims end in "or here are two texts with one digest".  The genesis value
  is a parameter (64 zeros in the source).
- HMAC signing is symbolic: a signature names the record that was signed.  Two kinds of records are
  signed, with the same key: decisions, when they are taken, and capabilities, when they are minted.
  Anyone may put any message on the topic of approvals, with any signature that has been made.
- A decision is one step of the transition system, which comes late if its session had seen the plan
  proposed before another decided it; DecisionRace takes the sessions apart.
- The clock, the model's and the retrieval service's answers, the runtime's and the breaker's answers
  to the executor, ids drawn by uuid4 (unused before) and the heading spans found by the regular
  expression are inputs.
- Times are integers; scores and confidences are reals, with NaN as a separate value for the confidence.

## Findings

Where the code does not do what its comments, documents or the obvious reading promise, the model
follows the code and a lemma says so exactly:

- "Failures redeliver" (src/aegis_common/kafka.py:81-82) holds of a record exactly as long as nothing
  else commits in the session, on whatever partition (`Consumer.RaisedIsPassedIff`); after such a
  commit it is never attempted again, without one the next session starts no later
  (`Consumer.RaisedIsLostOrRetried`).  What a whole session attempts and commits is
  `Consumer.SessionEffect`.
- A step is applied at most once under its key if no success of the runtime is lost before its row is
  written (`RemediationOnce.AppliedAtMostOnce`): by a crash, by a unit of work that fails, or because
  the key is taken and the conflict is swallowed.  After a loss it can be applied again exactly if the
  plan's row is still there (`RemediationOnce.LostIsRepeatedIff`, with runs in
  `RemediationOnce.CrashCanApplyTwice`).  A key whose row says failed never gets a success row, so
  every later delivery calls the runtime again (`RemediationResults.FailedRowStays`).
- The executor verifies the signature of a message's record, but not that it is a decision rather than
  a capability (`RemediationAuthority.CapabilityIsAccepted`), and compares neither its plan nor its
  incident nor its verdict with the message.  A record approves what is run exactly if it is a
  decision and these match (`RemediationAuthority.AcceptedRecordApprovesIff`); if all that is validly
  signed matches, every call is authorized (`RemediationAuthority.CallsAreAuthorized`), and otherwise
  a plan can run on which nothing was decided (`RemediationAuthority.ReplayedRecordRunsUndecidedPlan`).
  A decision is accepted for every plan of every incident with its token, and never where that is null
  or zero (`RemediationAuthority.DecisionIsAcceptedIff`).
  What the PDP publishes always matches (`RemediationAuthority.ProducerMatches`).
- A redelivery after a compensated run skips the steps the ledger calls applied and compensates them
  once more (`HandlerRuns.RedeliveryUndoesAgain`; `ActionPath.ActionPath.HandleOn` for any ledger).
- Two sessions that decide one plan can both land: once it is decided, another decision can still land
  exactly if a session is open that saw it proposed and whose audit number is not taken or still free
  (`DecisionRace.DecidedAgainIff`); the last one stands (`DecisionRace.ApprovedThenRejected`).  The
  executor does not look at the plan's status: a plan whose row says rejected can run exactly if it was
  approved as well and its incident has a fencing token (`RemediationResults.RejectedRunsIff`, with a
  run in `RemediationResults.LateRejectionRuns`).
- Rollback reuses the forward step's parameters and the seed catalog makes `scale_replicas` its own
  rollback: nothing is restored unless nothing changed (`Compensation.SeedScaleIsNotUndone`).
- The chain does not protect actor, action, incident or trace id, nor rows cut off at the end
  (`Audit.UncoveredByChain`).
- A redelivered OPENED event replaces a plan whatever its status, even an approved one, and leaves the
  old plan in place if its own run escalates (`PlanHistory.ReplacedWhateverItsStatus`).
- The confidence floor is not "at least 0.4": NaN, which `json.loads` accepts, passes it
  (`AgentSafety.PlanConfidence`, `AgentSafety.NotANumberGetsAPlan`).
- The usage reported for a run leaves out its last model call (`AgentSafety.PlanTokens`), and with
  `max_diagnose_iterations` of 2 or less no run ever plans (`AgentSafety.TwoIterationsNeverPlan`).
- The documented rule asks for the catalog's requires_approval flag
  (src/aegis_services/policy_approval/policy.py:3-10); the PDP passes the plan's flag instead.  Its
  disposition is the documented one exactly unless a step is licensed to run alone and the catalog
  flags its action (`Autonomy.AsDocumentedIff`), which happens (`Autonomy.FlaggedActionIsAutoApproved`).
- Text before the first heading is in no chunk (`Chunking.NothingLostIff`).
- Splitting never ends if the overlap is not smaller than the window (`Windows.LoopEndsIff`).
- Detection's `except IntegrityError` does not see a duplicate signal, which surfaces at the flush or
  commit; either way no table changes, but a token of the sequence is used up when the signal would
  have opened an incident (`Detection.DetectionWorker.HandleSignal`).

## Model

| member | source | states |
|---|---|---|
| Audit.HashInputParses | src/aegis_common/audit.py:26-29 | the text that is hashed can be read in one way only: equal texts mean equal number, link and canonical payload, for every integer number |
| Audit.VerifyChain | src/aegis_common/audit.py:61-70 | the loop answers true exactly when every row carries the hash of its own number, payload and predecessor's hash, and links to it |
| Audit.AuditLog.Append | src/aegis_common/audit.py:32-58 | one row is added at the end with the next number and the caller's columns, and an intact log stays intact |
| Audit.TamperEvidence | src/aegis_common/audit.py:61-70 | two intact logs ending in the same hash agree, row by row, on number, link, hash and payload, or two colliding texts or a preimage of the genesis value are exhibited |
| Audit.EditUnnoticedIff | src/aegis_common/audit.py:61-70 | exactly which replacements of one row verification does not notice |
| Audit.UncoveredByChain | src/aegis_common/audit.py:47-56 | actor, action, incident and trace id can be changed, and any tail cut off, without verification noticing |
| AuditConcurrency.ChainNeverBreaks | src/aegis_common/audit.py:42-58 | under every interleaving of reads, commits and aborts of any number of appenders the numbers are 1..n and the chain verifies |
| AuditConcurrency.AppendOnly | src/aegis_common/audit.py:57-58 | committed rows are never changed, moved or removed by later moves |
| AuditConcurrency.CommitIsCompareAndSwap | src/aegis_common/models.py:86-93 | a draft lands, as the newest row, exactly when nothing was committed since it was read; the only other failure exhibits a digest collision |
| AuditConcurrency.SharedHashCollides | src/aegis_common/models.py:93 | a draft refused by the unique hash column, though next in number, shares its digest with a row of different text |
| AuditConcurrency.AppendLands | src/aegis_common/audit.py:42-58 | a transaction that reads the tail and commits, with no row landing in between, adds exactly one row, numbered next, linked to the newest, hashed, and with the payload, actor, action, incident and trace id given; or a stored row of different text has its digest |
| AuditConcurrency.RowsTellEntries | src/aegis_common/audit.py:47-58 | every row of every run has the payload, actor, action, incident and trace id of an entry that some transaction was to append |
| RemediationSafety.RunKeeps | src/aegis_services/action_executor/worker.py:45-201 | the safety invariant of PDP, topic and executor holds in every reachable state |
| RemediationAuthority.AcceptedRecordApprovesIff | src/aegis_services/action_executor/worker.py:54-70 | whatever is on the topic, a message that is accepted carries the record of a decision taken or of a capability minted, and this approves the plan for the incident under its current token exactly if it is a decision whose plan, incident and verdict match the message |
| RemediationAuthority.DecisionIsAcceptedIff | src/aegis_services/action_executor/worker.py:54-70 | in every reachable state a signed decision is accepted for exactly those plans whose row exists and those incidents that have its token, where none or zero counts as -2; for its own plan exactly if the row exists and the token is neither null nor zero |
| RemediationAuthority.CapabilityIsAccepted | src/aegis_common/security.py:38-40 | a capability passes the verification and the token check for any existing plan, and never matches |
| RemediationAuthority.CapabilitiesMeanApproved | src/aegis_services/action_executor/worker.py:100-103 | if what is validly signed matches, capabilities are only signed for plans approved under their token |
| RemediationAuthority.CallsAreAuthorized | src/aegis_services/action_executor/worker.py:54-70 | if every message delivered with a valid signature matches its record, every runtime call comes after a committed approval of its plan carrying the incident's own token |
| RemediationAuthority.ExecutingMeansApproved | src/aegis_services/action_executor/worker.py:75 | under the same condition a plan that is executing or executed has been approved |
| RemediationAuthority.ProducerMatches | src/aegis_services/policy_approval/app.py:155-161 | what the PDP publishes matches its record, so without other producers the condition holds of every run |
| RemediationAuthority.ReplayedRecordRunsUndecidedPlan | src/aegis_services/action_executor/worker.py:49-70 | for every runnable step there is a run with a call of its action and parameters for a plan on which nothing was decided, by the signed record, decided before, of a plan of the incident that it replaced |
| RemediationResults.CompensatesWhatSucceeded | src/aegis_services/action_executor/worker.py:105-106 | a compensating call comes after a successful forward call of its step |
| RemediationResults.DecidedOnce | src/aegis_services/policy_approval/app.py:130-150 | a decided plan is never proposed again; it gets at most one decision if none comes late; and then, if what is validly signed matches its record, a rejected plan is never called on, executing or executed |
| RemediationResults.RejectedRunsIff | src/aegis_services/action_executor/worker.py:61-75 | with late decisions too: a plan whose row says rejected can start to execute, without another decision, exactly if it was approved as well and its incident has a fencing token |
| RemediationResults.LateRejectionRuns | src/aegis_services/action_executor/worker.py:61-75 | for every non-empty list of steps there is a run that approves a plan of them, rejects it late, and then executes it |
| DecisionRace.DecidedAgainIff | src/aegis_services/policy_approval/app.py:130-150 | with sessions that read and commit at different times: once a plan is decided, another decision can land exactly if a session is open that saw it proposed and whose audit number is not yet taken or still free |
| DecisionRace.AloneIsOnce | src/aegis_services/policy_approval/app.py:134-147 | if no other session is open when the first decision has landed, it stays the only one |
| DecisionRace.ApprovedThenRejected | src/aegis_services/policy_approval/app.py:134-147 | there is a run in which an approved plan ends rejected |
| RemediationResults.HistoryIsFinal | src/aegis_services/policy_approval/app.py:134-147 | ledger, audit records and events only grow at the end, and a plan that left proposed, or was dropped, never is proposed again |
| RemediationResults.NoReapplyAfterSuccess | src/aegis_services/action_executor/worker.py:122-130 | once a success row is committed, no later step of any run applies that key forward, over any redeliveries and crashes |
| RemediationResults.FailedRowStays | src/aegis_services/action_executor/worker.py:144-155 | a key whose row says failed never gets a success row, so its step is never skipped |
| RemediationResults.LedgerIsFaithful | src/aegis_services/action_executor/worker.py:144-156 | keys are unique, ledger and audit records match one to one in order, success rows stand for successful calls, and rows cover an initial segment of a plan's steps |
| RemediationResults.ExecutedMeansDone | src/aegis_services/action_executor/worker.py:182-192 | a plan marked executed had every step applied with success, and was approved if what is validly signed matches its record |
| RemediationResults.OnePlanRow | src/aegis_services/orchestrator/worker.py:149-155 | in every reachable state an incident has at most one plan row |
| RemediationOnce.AppliedAtMostOnce | src/aegis_services/action_executor/worker.py:120-156 | if no step of the run loses a success of the runtime before its row is written, no key has more than one successful forward call, over any redeliveries |
| RemediationOnce.LostIsRepeatedIff | src/aegis_services/action_executor/worker.py:137-156 | wherever a run loses a success, by a crash, a failing unit of work or a swallowed conflict, some continuation applies the key with success again exactly if the plan's row still exists, and one that loses nothing more exactly if besides the ledger holds no earlier step of the plan as failed |
| RemediationOnce.CrashCanApplyTwice | src/aegis_services/action_executor/worker.py:137-144 | for every runnable step and catalog there is a run without a loss, of a plan of that step, up to its first successful answer, after which one crash, or one failing unit of work, loses it, and without another loss the step is applied again with success under the same key |
| ActionPath.ActionPath.Decide | src/aegis_services/policy_approval/app.py:125-165 | refused exactly unless the plan is proposed; otherwise, as its commit and its publishing go through, nothing changes, or exactly the status, one audit record and one decision with the incident's token are added and the approval is published, or left unsent |
| ActionPath.ActionPath.CommitDecision | src/aegis_services/policy_approval/app.py:130-150 | approval row, status and audit record, with plan, incident, verdict, approver and token, in one step of the system, and the signed message for it |
| ActionPath.ActionPath.Send | src/aegis_services/policy_approval/app.py:155-161 | the approval moves from committed to published |
| ActionPath.ActionPath.LookUp | src/aegis_services/action_executor/worker.py:122-130 | applied exactly if the ledger holds a success for the key |
| ActionPath.ActionPath.CallForward | src/aegis_services/action_executor/worker.py:137 | one forward call with the answer given, nothing written yet |
| ActionPath.ActionPath.CallRollback | src/aegis_services/action_executor/worker.py:162-170 | one compensating call with the forward step's parameters and the answer given |
| ActionPath.ActionPath.AuditRollback | src/aegis_services/action_executor/worker.py:171-178 | the audit record of a compensating call, with its answer, in a unit of work of its own |
| ActionPath.ActionPath.Begin | src/aegis_services/action_executor/worker.py:54-75 | refused exactly if signature, rows or token fail; otherwise the plan becomes executing and a handler starts for the message's plan and incident, with the plan's steps and the incident's token, exactly if the unit of work goes through |
| ActionPath.ActionPath.MintCredential | src/aegis_services/action_executor/worker.py:100-103 | a capability for the handler's incident, plan and token is signed |
| ActionPath.ActionPath.ExecuteStep | src/aegis_services/action_executor/worker.py:89-156 | the result as a function of catalog, ledger and answers: failed if the action is missing, disabled or lacks a parameter, skipped if the ledger holds its success, failed if the breaker refuses, otherwise as the runtime answers, or interrupted where the process dies or the row's unit of work fails; with the one call, the one row and the next handler state of each |
| ActionPath.ActionPath.WriteDown | src/aegis_services/action_executor/worker.py:144-156 | row and audit record are added exactly if the unit of work goes through and the key is free; it can fail whether or not the key is taken, and then ends the handler |
| ActionPath.ActionPath.Rollback | src/aegis_services/action_executor/worker.py:159-179 | the calls made are the rollback of each applied reversible step, once, in reverse order, with the step's own parameters, down to where the answers cut it short |
| ActionPath.ActionPath.UndoStep | src/aegis_services/action_executor/worker.py:161-178 | one round makes the step's compensating call, if it has one, and goes on or ends the handler, as given |
| ActionPath.ActionPath.Walk | src/aegis_services/action_executor/worker.py:88-109 | the steps skipped are those the ledger held at the start; every step before the stop passes, with one success row for each one called on a free key, and the stop is the first step that does not pass, or where the process dies or a unit of work fails |
| ActionPath.ActionPath.HandleApproved | src/aegis_services/action_executor/worker.py:45-117 | the whole handler, for every script of answers and failures: ignored exactly if the checks fail; if nothing dies or fails, completed exactly if every step is in the catalog, enabled, well parameterised and held as a success or admitted and answered ok, and otherwise escalated at the first that is not; interrupted or abandoned only where the script says so; calls, ledger rows and plan status are exact for each |
| ActionPath.ActionPath.Perform | src/aegis_services/action_executor/worker.py:83-117 | after the first unit of work: the step loop, and then the resolution, or the compensation and the escalation, as the script says |
| ActionPath.ActionPath.ResolveIncident | src/aegis_services/action_executor/worker.py:182-192 | the plan row, if it still exists, becomes executed, and one audit record and the resolution are added, exactly if the unit of work goes through |
| ActionPath.ActionPath.HandleOn | src/aegis_services/action_executor/worker.py:83-117 | what a handled message that escalates leaves, from any ledger and on any well-behaved runtime: the steps the ledger let it skip undone once more, the irreversible effects of the others, nothing else; the state before if it skipped exactly the irreversible ones |
| Compensation.UndoCommutes | src/aegis_services/action_executor/worker.py:161-166 | an irreversible effect that commutes with the rollbacks may be taken as coming after them |
| Compensation.WalkCommutes | src/aegis_services/action_executor/worker.py:128-130 | the rollback of a skipped step that commutes with the applied ones before it may be taken as coming before the walk |
| Compensation.NetEffect | src/aegis_services/action_executor/worker.py:83-117 | walk with any steps skipped, then compensate: only the extra undoing of the skipped ones and the irreversible effects of the others remain |
| Compensation.FailedRunLeaves | src/aegis_services/action_executor/worker.py:83-117 | a run that fails at any step, called or not, leaves the same; if it skipped exactly the irreversible steps, the infrastructure is as it was |
| Compensation.NothingRemainsIff | src/aegis_services/action_executor/worker.py:159-166 | no irreversible effect remains and nothing is undone in excess exactly if the skipped steps are the irreversible ones |
| HandlerRuns.Fails | src/aegis_services/action_executor/worker.py:45-117 | from every state, any accepted message can be delivered so that a runnable step that is no success yet fails, with exactly the calls of such a run and its rows |
| HandlerRuns.RedeliveryUndoesAgain | src/aegis_services/action_executor/worker.py:128-130 | in every reachable state, a message accepted for the first time has two deliveries that fail at the same step, of which the second undoes all the earlier steps once more |
| HandlerRuns.RedeliveryCompensatesAgain | src/aegis_services/action_executor/worker.py:128-130 | there is a run that accepts a message for the first time, for a plan whose rollbacks all invert their steps, and two failing, compensated deliveries of it, after which the infrastructure is as it was, and then one rollback short |
| Compensation.SeedScaleIsNotUndone | scripts/init_db.py:24-26 | a rolled-back scale step restores the replica count exactly if it did not change it |
| Topology.ServiceTopology.constructor | src/aegis_services/detection/topology.py:15-20 | two services are neighbours exactly when one is declared to depend on the other |
| Topology.RepresentedIsSymmetric | src/aegis_services/detection/topology.py:20 | the adjacency is symmetric |
| Topology.GrownIsConnected | src/aegis_services/detection/topology.py:22-28 | services each related to an earlier one induce a connected subgraph |
| Correlation.CorrelatePicksBest | src/aegis_services/detection/correlation.py:61-80 | a signal attaches to an in-window related incident that no other such one outdates, and opens a new one exactly when there is none |
| Correlation.TruncationOnlyOpens | src/aegis_services/detection/worker.py:59-63 | looking at only the newest incidents changes the answer exactly when none of them is joinable and an older one is, and then to opening a new one |
| Correlation.TruncationHarmless | src/aegis_services/detection/worker.py:59-63 | if the last incident looked at is out of the window, or all were looked at, the answer is the same |
| Sorting.FirstOfSortedIsBest | src/aegis_services/detection/correlation.py:71-74 | scanning the sorted copy finds the best element of the original list, the earliest if several are best |
| Detection.DetectionWorker.HandleSignal | src/aegis_services/detection/worker.py:75-146 | the three tables and the sequence become what the fold's step says: refused, attached or opened |
| DetectionHistory.IncidentsAreConnected | src/aegis_services/detection/worker.py:87-126 | after every run the services of every incident induce a connected subgraph of the topology |
| DetectionHistory.TableIsFold | src/aegis_services/detection/worker.py:92-106 | every incident's severity is the most severe of its signals, its services are theirs in first-seen order, and every stored signal's service is on its incident |
| DetectionHistory.StoredAsSent | src/aegis_services/detection/worker.py:46-56 | every stored signal is one that arrived, unchanged but for the severity of alerts that came with none |
| DetectionHistory.AlertsGradeIncidents | src/aegis_services/detection/worker.py:54-94 | an incident that an alert was attached to never has an unknown severity |
| DetectionHistory.WorstIsMostSevere | src/aegis_services/detection/correlation.py:35-36 | folding more_severe gives a severity that occurs and that none outranks |
| DetectionHistory.FirstSeenInOrder | src/aegis_services/detection/worker.py:92-93 | the services of a list of signals, each once, in the order of first occurrence |
| DetectionHistory.TokensIncrease | src/aegis_services/detection/worker.py:118-124 | fencing tokens strictly increase in the order in which incidents were opened |
| DetectionHistory.ArrivalEffect | src/aegis_services/detection/worker.py:87-137 | a redelivered signal changes no table; a new one adds one signal and one audit row and raises one unresolved incident's version by one or opens one, leaving all others |
| DetectionHistory.ArrivalJoins | src/aegis_services/detection/worker.py:83-125 | after every run, a signal that is not stored attaches exactly if some listed unresolved incident was updated within the window and has the signal's service or a neighbour of it, then to one that no other such incident outdates, which becomes investigating; otherwise it opens the new incident, open, with the next token, on its service alone |
| Reliability.CircuitBreaker.State | src/aegis_common/reliability.py:41-45 | looking at the state is an event of the history: it may move an open breaker to half-open |
| Reliability.CircuitBreaker.Guard | src/aegis_common/reliability.py:60-63 | admits exactly if the breaker is not open after looking |
| Reliability.CircuitBreaker.RecordFailure | src/aegis_common/reliability.py:54-58 | the fields stay the replay of the history with the failure added |
| Reliability.CircuitBreaker.RecordSuccess | src/aegis_common/reliability.py:50-52 | the fields stay the replay of the history with the success added |
| Reliability.CircuitBreaker.Allow | src/aegis_common/reliability.py:47-48 | true exactly if the breaker is not open after looking |
| Reliability.HalfOpenIsLate | src/aegis_common/reliability.py:41-45 | half-open is only reached once the cooldown since the opening has passed |
| Reliability.FieldsFollowHistory | src/aegis_common/reliability.py:30-58 | failures is the run of failures since the last success, closed means that run is below the threshold, and the opening time is that of the latest failure |
| Reliability.RefusedIff | src/aegis_common/reliability.py:41-63 | calls are refused exactly while the run has reached the threshold and less than the cooldown has passed since the latest failure |
| Reliability.ProbeDecides | src/aegis_common/reliability.py:50-58 | out of half-open one failure trips again from that moment, one success closes |
| BreakerRate.GuardedCall | src/aegis_services/orchestrator/agents.py:36-45 | refused, on a clock that does not run backwards, exactly if the failures since the last success have reached the threshold and the latest is less than the cooldown ago; an admitted call is recorded as success, leaving no failures and the breaker closed, or as failure at its end; a refused one records nothing |
| BreakerRate.FailuresAreSpaced | src/aegis_services/action_executor/worker.py:132-142 | over a stretch of failing calls, admissions beyond the threshold are at least a cooldown apart |
| BreakerRate.GapsAddUp | src/aegis_common/reliability.py:41-58 | n admissions in a window, of which only the first ones are free, span at least as many cooldowns as there are others |
| BreakerRate.RateBound | src/aegis_common/reliability.py:41-63 | between two successes, or from a fresh breaker, at most threshold + floor(T / cooldown) failing calls are admitted in any period of length T |
| Budgets.Budget.ChargeTokens | src/aegis_common/reliability.py:87-88 | the fields stay the total of the history with the charge added; negative amounts count as nothing |
| Budgets.Budget.Start | src/aegis_common/reliability.py:79-82 | the fields stay the total of the history with the start added |
| Budgets.Budget.ChargeIteration | src/aegis_common/reliability.py:84-85 | the fields stay the total of the history with the iteration added |
| Budgets.Budget.Exhausted | src/aegis_common/reliability.py:101-109 | the first that holds of: iterations charged reach the ceiling, the sum of positive token charges does, the time since the last start does |
| Budgets.CountersFollowHistory | src/aegis_common/reliability.py:84-96 | the counters are the number of iterations charged and the sum of the positive token charges |
| Budgets.ExhaustedIsFinal | src/aegis_common/reliability.py:101-109 | once exhausted, a budget that is not restarted stays exhausted, whatever is charged and as time goes on |
| Budgets.OverrunBound | src/aegis_common/reliability.py:84-109 | after a check that passes, further charges overrun the ceilings by less than what they add |
| Windows.Window | src/aegis_common/chunking.py:50-61 | the loop returns exactly ceil((n - overlap) / stride) pieces, the k-th starting k strides into the text |
| Windows.CountBounds | src/aegis_common/chunking.py:55-60 | the count is the least number of strides that covers the text |
| Windows.NeighboursShare | src/aegis_common/chunking.py:56-60 | every piece is non-empty and fits; neighbours have exactly the overlap in common |
| Windows.PiecePlace | src/aegis_common/chunking.py:55-60 | every window but the last is full, only the last reaches the end of the text |
| Windows.GlueRestores | src/aegis_common/chunking.py:50-61 | the first piece followed by the others without their overlap is the text |
| Windows.LoopEndsIff | src/aegis_common/chunking.py:55-60 | on a text longer than a window the loop ends exactly if the overlap is smaller than the window |
| Chunking.ChunkMarkdown | src/aegis_common/chunking.py:22-47 | the loops return the windows of every section in turn, numbered through; a blank text gives none |
| Chunking.SplitSections | src/aegis_common/chunking.py:28-38 | the loop over the headings gives one section each, from its heading to the next |
| Chunking.ChunkSections | src/aegis_common/chunking.py:40-47 | the loop over the sections gives their windows in order, numbered through |
| Chunking.ChunkShape | src/aegis_common/chunking.py:40-46 | the k-th chunk has ordinal k, is non-empty and at most max_chars long, and is one window of one section under that section's own heading, k being that window's place among all |
| Chunking.HeadedContent | src/aegis_common/chunking.py:34-43 | a section's heading is its heading line and its content its stretch of the text, heading included, up to white space |
| Chunking.HeadedText | src/aegis_common/chunking.py:34-43 | heading and body are the heading's span and the rest up to the next heading, each without the blanks at its ends, and the content is both with one line break between |
| Chunking.ChunksRecoverText | src/aegis_common/chunking.py:28-46 | gluing each section's windows gives the text from the first heading on, in order, up to white space |
| Chunking.NothingLostIff | src/aegis_common/chunking.py:30-38 | the whole text is recovered exactly when what precedes the first heading is blank |
| Chunking.NoChunksIffBlank | src/aegis_common/chunking.py:24-26 | there is no chunk exactly when the text is blank |
| Consumer.KafkaBus.HandleRecord | src/aegis_common/kafka.py:100-111 | one attempt at the record's offset; the position moves before the handler runs; a completed attempt commits every position, any other none, and a crash ends the session |
| Consumer.KafkaBus.Consume | src/aegis_common/kafka.py:92-116 | one session takes exactly the steps of joining, the records up to the first stop or crash, and leaving |
| Consumer.SessionEffect | src/aegis_common/kafka.py:96-116 | a session, from any state, attempts every record once, at the offset its partition's earlier records lead to from where it was committed, and ends with every partition committed past all its records up to the last completed one, on whatever partition, however they ended |
| Consumer.SeenIsPrefix | src/aegis_common/kafka.py:96-113 | a session sees its deliveries in order up to the first one after which the stop event is set or the process is gone |
| Consumer.CommittedWasHandled | src/aegis_common/kafka.py:96-111 | every record below a committed offset completed at least once, or else raised at least once with every attempt raising or cut off |
| Consumer.CommittedIsFinal | src/aegis_common/kafka.py:108 | committed offsets never fall, and no record below one is attempted again |
| Consumer.RaisedIsPassedIff | src/aegis_common/kafka.py:107-111 | within a session, a record whose handler raised is below the committed offset exactly if a later record, on any partition, has committed |
| Consumer.RaisedIsLostOrRetried | src/aegis_common/kafka.py:81-111 | after such a commit it is never attempted again in any continuation; without one the next session starts no later |
| Consumer.UncommittedIsRetried | src/aegis_common/kafka.py:84-96 | as long as nothing commits, whatever raises or crashes, the next session starts where the last commit left off |
| Retrieval.EvidenceBundle.constructor | src/aegis_services/rag_service/retrieval.py:54-56 | the episodic hits are bundled in stable descending order of score |
| Retrieval.BestPrecedentIsBest | src/aegis_services/rag_service/retrieval.py:31-32 | the best precedent exists exactly if there are hits, is one of them, and none scores higher |
| Retrieval.GateSeesAllHits | src/aegis_services/rag_service/retrieval.py:35-56 | the gate on the sorted hits opens exactly if some hit of the unsorted results reaches the threshold |
| AgentGraph.AgentRun.AskModel | src/aegis_services/orchestrator/agents.py:36-49 | refused exactly after four failures in a row, the last less than 20 seconds ago; an admitted call is counted and recorded as the success or failure it is; only an answer is charged, with its tokens, and returned |
| AgentGraph.AgentRun.RetrieveEvidence | src/aegis_services/orchestrator/worker.py:49-67 | guarded and recorded in the same way on its own breaker, an unreadable reply being a success of it; a value exactly if hits were found, saying whether some hit reaches 0.75 |
| AgentGraph.AgentRun.TriageAgent | src/aegis_services/orchestrator/agents.py:52-69 | an iteration and one call are charged; the run goes on exactly if the answer is readable |
| AgentGraph.AgentRun.RecommendationAgent | src/aegis_services/orchestrator/agents.py:95-107 | an iteration and one call are charged; the plan is the answer's, empty if it names none |
| AgentGraph.AgentRun.InvestigationAgent | src/aegis_services/orchestrator/agents.py:72-92 | retrieval and answer set precedent and confidence, 0 if none is named; every failure ends the run |
| AgentGraph.AgentRun.GateNode | src/aegis_services/orchestrator/graph.py:32-56 | the state after the three gates, and the charges left alone |
| AgentGraph.RunGraph | src/aegis_services/orchestrator/graph.py:68-88 | a whole run on shared breakers ends as the specification of the graph says, breakers included |
| AgentSafety.RunOutcome | src/aegis_services/orchestrator/graph.py:32-88 | a run that does not raise ends in plan_ready or escalate, escalated saying which; it has a plan, after three calls, exactly when the budget held at the gate and the confidence was not below 0.4, and otherwise names the first of the four reasons that holds; flags, confidence, precedent and reported usage are exact |
| AgentSafety.RunCompletesIff | src/aegis_services/orchestrator/agents.py:36-107 | a run does not raise exactly if the breakers let its first question and its retrieval through, the diagnosis is readable and, where the gate clears it, the recommendation is; no later question is ever refused |
| AgentSafety.BreakerAfterRun | src/aegis_services/orchestrator/agents.py:36-45 | what any run, raising or not, leaves in the model's breaker, by the number of calls it made and how the last one ended |
| AgentSafety.AnswersDecide | src/aegis_services/orchestrator/agents.py:87-104 | an answer that names no confidence never leads to a plan, and a plan is the one its answer names, or empty |
| AgentSafety.AtMostThreeCalls | src/aegis_services/orchestrator/agents.py:52-107 | no run, raising or not, asks the model more than three times |
| AgentSafety.PlanTokens | src/aegis_services/orchestrator/graph.py:34-37 | a run with a plan spends less than the token ceiling plus its last answer, which the reported usage leaves out |
| AgentSafety.TwoIterationsNeverPlan | src/aegis_common/reliability.py:103-104 | with room for fewer than three iterations no run plans |
| AgentSafety.PlanConfidence | src/aegis_services/orchestrator/graph.py:44-51 | a plan's confidence is at least 0.4 exactly if it is not NaN, and NaN never licenses autonomy |
| AgentSafety.NotANumberGetsAPlan | src/aegis_services/orchestrator/graph.py:44-45 | there is a run with confidence NaN that ends with a plan |
| AgentSafety.ClosedBreakersComplete | src/aegis_services/orchestrator/agents.py:36-45 | with closed breakers a run raises only if one of its four answers fails |
| PlanStore.Orchestrator.PersistAndEmit | src/aegis_services/orchestrator/worker.py:127-177 | snapshot, replaced plan and steps are stored together or not at all; nothing is stored exactly if the commit fails or a step is no object; the snapshot is the final state, the plan is proposed with the run's flags, and the event is its plan_proposed, or escalated with the reason where the run escalated or has no plan |
| PlanStore.Orchestrator.InsertSteps | src/aegis_services/orchestrator/worker.py:161-164 | the loop adds one row a step, with its ordinal and tier, and raises exactly if a step is no object |
| PlanHistory.StoredPlan | src/aegis_services/orchestrator/worker.py:149-164 | after any history an incident has no plan or exactly the latest stored one, proposed or in the status last given to it since, with the run's flags, and every ordered read returns the proposed actions in order with their tiers, medium if the catalog has none |
| PlanHistory.SnapshotIsLatest | src/aegis_services/orchestrator/worker.py:130-137 | after any history an incident's snapshot is the final state of its latest delivery whose session was committed |
| PlanHistory.StatusIsGiven | src/aegis_services/orchestrator/worker.py:155 | a stored plan is proposed, until another status is given to it |
| PlanHistory.OrderedReadIsTheList | src/aegis_services/action_executor/worker.py:71-73 | a read ordered by ordinal has only one possible result |
| PlanHistory.NoOrphans | src/aegis_services/orchestrator/worker.py:150-164 | no step row ever lacks its plan, and the ordinals of a plan are 0..n-1 |
| PlanHistory.PersistTwice | src/aegis_services/orchestrator/worker.py:149-164 | storing the same final state again gives the same single plan up to new ids, in status proposed |
| PlanHistory.ReplacedWhateverItsStatus | src/aegis_services/orchestrator/worker.py:150-154 | an incident's earlier plan survives a delivery exactly if that delivery stores none, whatever its status |
| Policy.PlanOut | src/aegis_services/policy_approval/app.py:80-100 | every step of the ordered read is reported with its disposition; only an unknown mode raises |
| Autonomy.AutonomyChain | src/aegis_services/policy_approval/app.py:86-97 | after any history a step is auto_approve exactly if the environment's policy row says auto_low, the catalog calls its action low, and the run behind the plan had confidence of at least 0.7 and some hit of at least 0.75 |
| Autonomy.NoHumanIff | src/aegis_services/policy_approval/policy.py:52-54 | a plan needs no human exactly if every proposed action is so licensed |
| Autonomy.AsDocumentedIff | src/aegis_services/policy_approval/app.py:93-95 | the PDP's disposition is the one of the documented rule, with the catalog's own flag, exactly unless the step is licensed and the catalog flags its action |
| Autonomy.FlaggedActionIsAutoApproved | src/aegis_services/policy_approval/app.py:93-95 | there is an agent run whose plan is stored and whose step is reported as auto_approve although the catalog wants its action approved |

## Left out

- Clients and encodings: Kafka, Postgres, Redis, Qdrant, HTTP, Kubernetes, LangGraph and OpenTelemetry appear only as their effects; SHA-256, HMAC and JSON only as functions.
- Two replicas of detection that open incidents for one fault at the same time: each signal is handled in one atomic unit of work.
- RemediationResults.DecidedOnce: does not promise one decision where sessions overlap; RejectedRunsIff says what follows, DecisionRace when it happens.
- Delivery of events published next to a transaction: lost or phantom lifecycle events, and escalation events, are not modelled; the approval on actions.requested is.
- Expiry and checking of capabilities, and the runtimes' bodies: a capability is what is signed for incident, plan, token and namespace; a runtime call is a step with any answer.
- The breaker's state inside the executor's handler: its answers are an input there, as are the runtime's, the database's and the process's death; the breaker itself and its clients are proved apart.
- Decision requests with any other text than approved or rejected: they are refused before anything is read, and a verdict here is one of the two.
- Step row statuses written by the rollback, titles, labels, summaries, rationales and the other texts that rows and agents carry.
- Workflow columns of the snapshot row: they copy fields of the stored state, which is kept whole.
- Infinite confidences and scores, NaN scores, and rounding: reals are exact.
- The heading regular expression: the spans it finds are an input, in order, disjoint and not blank.
- Gateway, console, notification, metrics, logging, configuration, migrations, manifests and `update_status`: no hard property, or not called.
- Resolution as recovery of the signals: the code marks an incident resolved when its steps are done, and so does the model.
- Audit.VerifyChain: it accepts every prefix of a good chain, as the code does, so a log cut off at the end is not detected without its newest hash.
- RemediationResults.NoReapplyAfterSuccess: speaks of committed success rows only, because a crash before the row can repeat a call.
- DetectionHistory.IncidentsAreConnected: the topology is fixed over the run; the code reloads it with every signal.
