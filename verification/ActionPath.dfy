/**
  The code of the action path over the tables: `decide` (policy_approval/app.py:125-165) and
  `handle_approved`, `_execute_step`, `_rollback` and `_resolve` (action_executor/worker.py:45-201).

  Every unit of work and every runtime call is one method, proved to be one step of the transition
  system; so an object of this class is always in a state that a run of the system reaches, and every
  result about runs holds of it.  The breaker's and the runtime's answers are inputs, and so is where
  the process dies or a unit of work fails, because the number that its audit record takes is taken by
  then or for another reason.
*/
module ActionPath {
  import opened Options
  import opened Remediation
  import opened Compensation

  /**
    How handling one message ends.  Interrupted: it stops before the row of a step is written, with the
    runtime's answer if the call was made, or before the resolution.  Abandoned: it stops in the
    compensation, with the steps below `left` not yet compensated.
  */
  datatype Outcome =
    | Ignored
    | Completed
    | Escalated(called: bool)
    | Interrupted(call: Option<bool>)
    | Abandoned(called: bool, left: nat)

  datatype StepResult = Skipped | Success | Failure(called: bool) | Interruption(call: Option<bool>)

  /**
    What the outside does while a step is walked: whether the process dies before the ledger is looked
    at, whether the breaker admits the call, how the runtime answers, and whether the row's unit of
    work goes through.
  */
  datatype StepAnswer = StepAnswer(dies: bool, admitted: bool, ok: bool, writes: bool)

  /** ... and while it is compensated: the runtime's answer, and whether the handler goes on afterwards. */
  datatype UndoAnswer = UndoAnswer(ok: bool, goes: bool)

  /** ... and for a whole handler: whether its first and its last unit of work go through. */
  datatype Script = Script(starts: bool, steps: nat -> StepAnswer, undo: nat -> UndoAnswer, resolves: bool)

  /** CommitFailed: nothing was decided.  PublishFailed: an approval that no message tells of. */
  datatype Response =
    | Ok(status: PlanStatus)
    | NotFound
    | AlreadyDecided(status: PlanStatus)
    | CommitFailed
    | PublishFailed

  /** The APPROVED event for a decision on a plan. */
  function MessageFor(w: World, plan: PlanId, verdict: Verdict, approver: string): Message
    requires plan in w.plans
  {
    var incident := w.plans[plan].incident;
    var token := if incident in w.incidents then w.incidents[incident] else Some(0);
    var record := Record(plan, incident, verdict, approver, token);
    MessageOf(record)
  }

  class ActionPath {
    var incidents: map<IncidentId, Option<int>>
    var plans: map<PlanId, Plan>
    var status: map<PlanId, PlanStatus>
    var topic: set<Message>
    var ledger: seq<LedgerRow>
    var audit: seq<AuditNote>
    ghost var unsent: set<Message>
    ghost var minted: set<Claim>
    ghost var handlers: map<IncidentId, Handler>
    ghost var log: seq<Event>
    ghost var steps: seq<Step>

    ghost function State(): World
      reads this
    {
      World(incidents, plans, status, unsent, topic, minted, ledger, audit, handlers, log)
    }

    /** The object is in the state that its steps lead to. */
    ghost predicate Valid()
      reads this
    {
      State() == Run(steps)
    }

    twostate predicate Took(s: Step)
      reads this
    {
      State() == Next(old(State()), s) && steps == old(steps) + [s]
    }

    /** Nothing but the ledger, the audit table, plan statuses, capabilities, the log and the handlers has changed. */
    twostate predicate Framed()
      reads this
    {
      incidents == old(incidents) && plans == old(plans) && topic == old(topic) && unsent == old(unsent)
    }

    twostate lemma TookKeepsValid(s: Step)
      requires old(Valid()) && Took(s)
      ensures Valid()
    {
      assert steps[..|steps| - 1] == old(steps);
    }

    constructor ()
      ensures Valid() && State() == INITIAL
    {
      incidents, plans, status, topic := map[], map[], map[], {};
      ledger, audit := [], [];
      unsent, minted, handlers, log, steps := {}, {}, map[], [], [];
    }

    /** The unit of work of `decide`. */
    method CommitDecision(plan: PlanId, verdict: Verdict, approver: string) returns (m: Message)
      requires Valid() && plan in status && plan in plans && status[plan] == Proposed
      modifies this
      ensures Valid() && Took(Step.Decide(plan, verdict, approver, false))
      ensures m == old(MessageFor(State(), plan, verdict, approver))
      ensures DecisionIs(plan, verdict, approver) && m == MessageOf(log[|log| - 1].record)
      ensures verdict == Approve ==> m in unsent
    {
      var incident := plans[plan].incident;
      var token := if incident in incidents then incidents[incident] else Some(0);
      var record := Record(plan, incident, verdict, approver, token);
      m := Message(incident, plan, Approval(record), SignApproval(record));
      status := status[plan := if verdict == Approve then Approved else Rejected];
      audit := audit + [PlanDecided(plan, verdict)];
      log := log + [Decided(record)];
      unsent := if verdict == Approve then unsent + {m} else unsent;
      steps := steps + [Step.Decide(plan, verdict, approver, false)];
      TookKeepsValid(Step.Decide(plan, verdict, approver, false));
    }

    method Send(m: Message)
      requires Valid() && m in unsent
      modifies this
      ensures Valid() && Took(Publish(m)) && status == old(status) && log == old(log) && audit == old(audit)
      ensures m in topic
    {
      topic := topic + {m};
      unsent := unsent - {m};
      steps := steps + [Publish(m)];
      TookKeepsValid(Publish(m));
    }

    /**
      `decide`: refused unless the plan is proposed; an approval is published after its commit.  Whether
      the commit and the publication go through is given.
    */
    method Decide(plan: PlanId, verdict: Verdict, approver: string, commits: bool, sends: bool)
      returns (response: Response)
      requires Valid()
      modifies this
      ensures Valid()
      ensures response.NotFound? || response.AlreadyDecided? <==>
        !(plan in old(status) && plan in old(plans) && old(status)[plan] == Proposed)
      ensures response.CommitFailed? || response.PublishFailed? || response.Ok? ==>
        response == if !commits then CommitFailed
                    else if verdict == Approve && !sends then PublishFailed
                    else Ok(if verdict == Approve then Approved else Rejected)
      ensures response.NotFound? || response.AlreadyDecided? || response.CommitFailed? ==> State() == old(State())
      ensures response.Ok? || response.PublishFailed? ==>
        var decided := Next(old(State()), Step.Decide(plan, verdict, approver, false));
        var m := MessageFor(old(State()), plan, verdict, approver);
        State() == if verdict == Approve && response.Ok? then Next(decided, Publish(m)) else decided
      ensures response.Ok? || response.PublishFailed? ==> DecisionIs(plan, verdict, approver)
      ensures response.Ok? && verdict == Approve ==> MessageOf(log[|log| - 1].record) in topic
      ensures response.PublishFailed? ==> MessageOf(log[|log| - 1].record) in unsent
    {
      hide Next;
      if plan !in status || plan !in plans {
        return NotFound;
      }
      if status[plan] != Proposed {
        return AlreadyDecided(status[plan]);
      }
      if !commits {
        return CommitFailed;
      }
      var m := CommitDecision(plan, verdict, approver);
      if verdict == Approve {
        if !sends {
          return PublishFailed;
        }
        Send(m);
      }
      return Ok(if verdict == Approve then Approved else Rejected);
    }

    /** The decision is the last event and the last audit record, and the status says so. */
    twostate predicate DecisionIs(plan: PlanId, verdict: Verdict, approver: string)
      requires old(plan in plans)
      reads this
    {
      var incident := old(plans)[plan].incident;
      var token := if incident in old(incidents) then old(incidents)[incident] else Some(0);
      && log == old(log) + [Decided(Record(plan, incident, verdict, approver, token))]
      && audit == old(audit) + [PlanDecided(plan, verdict)]
      && status == old(status)[plan := if verdict == Approve then Approved else Rejected]
    }

    // ----- The executor's units of work and runtime calls -----

    /** Verification, the currency check, and `executing`, in one unit of work that can fail. */
    method Begin(m: Message, catalog: Catalog, commits: bool) returns (job: Option<Job>, refused: bool)
      requires Valid() && m in topic && m.incident !in handlers
      modifies this
      ensures Valid() && Framed() && log == old(log) && ledger == old(ledger)
      ensures refused <==> !old(Accepts(State(), m))
      ensures job.Some? <==> !refused && commits
      ensures job == None ==> State() == old(State())
      ensures job.Some? ==> job.value == old(JobOf(State(), m, catalog)) && job.value.steps == plans[m.plan].steps
      ensures job.Some? ==> job.value.incident == m.incident && job.value.plan == m.plan && job.value.catalog == catalog
      ensures job.Some? ==> handlers == old(handlers)[m.incident := Walking(job.value, 0)]
      ensures job.Some? ==> status == old(status)[m.plan := Executing]
    {
      if !VerifyApproval(m.claim, m.signature) {
        return None, true;
      }
      if m.plan !in status || m.plan !in plans || m.incident !in incidents {
        return None, true;
      }
      if !TokenCurrent(TokenOf(m.claim), incidents[m.incident]) {
        return None, true;
      }
      if !commits {
        return None, false;
      }
      var planSteps := plans[m.plan].steps;
      var fencing := incidents[m.incident].GetOr(0);
      job, refused := Some(Job(m.incident, m.plan, fencing, planSteps, catalog)), false;
      status := status[m.plan := Executing];
      handlers := handlers[m.incident := Walking(job.value, 0)];
      steps := steps + [Deliver(m, catalog)];
      TookKeepsValid(Deliver(m, catalog));
    }

    /** The handler ends where it stands: an exception that nothing catches, or the process dies. */
    ghost method Die(inc: IncidentId)
      requires Valid()
      modifies this`handlers, this`steps
      ensures Valid() && handlers == old(handlers) - {inc}
    {
      handlers := handlers - {inc};
      steps := steps + [Crash(inc)];
      TookKeepsValid(Crash(inc));
    }

    ghost predicate At(inc: IncidentId, h: Handler)
      reads this
    {
      inc in handlers && handlers[inc] == h
    }

    /** mint_credential, for the step's namespace. */
    ghost method MintCredential(job: Job, namespace: string)
      requires Valid() && job.incident in handlers && handlers[job.incident].job == job
      modifies this`minted, this`steps
      ensures Valid() && minted == old(minted) + {Capability(job.incident, job.plan, job.token, namespace)}
    {
      minted := minted + {Capability(job.incident, job.plan, job.token, namespace)};
      steps := steps + [Mint(job.incident, namespace)];
      TookKeepsValid(Mint(job.incident, namespace));
    }

    /** The namespace that a capability is for. */
    ghost function NamespaceOf(params: Params): string {
      if params.Object? && "namespace" in params.fields then params.fields["namespace"] else "default"
    }

    /** The idempotency look-up of _execute_step. */
    method LookUp(job: Job, i: nat) returns (applied: bool)
      requires Valid() && At(job.incident, Walking(job, i))
      requires i < |job.steps| && Runnable(job.catalog, job.steps[i])
      modifies this
      ensures Valid() && Framed() && log == old(log) && ledger == old(ledger) && status == old(status)
      ensures applied <==> HasSuccess(ledger, job.KeyOf(i))
      ensures handlers == old(handlers)[job.incident := if applied then Walking(job, i + 1) else Cleared(job, i)]
    {
      applied := HasSuccess(ledger, job.KeyOf(i));
      handlers := handlers[job.incident := if applied then Walking(job, i + 1) else Cleared(job, i)];
      steps := steps + [Check(job.incident)];
      TookKeepsValid(Check(job.incident));
    }

    /** A step that is not in the catalog, not enabled, or has the wrong parameters ends the walk. */
    ghost method GiveUp(job: Job, i: nat)
      requires Valid() && At(job.incident, Walking(job, i))
      requires i < |job.steps| && !Runnable(job.catalog, job.steps[i])
      modifies this`handlers, this`steps
      ensures Valid() && handlers == old(handlers)[job.incident := Undoing(job, i)]
    {
      handlers := handlers[job.incident := Undoing(job, i)];
      steps := steps + [Check(job.incident)];
      TookKeepsValid(Check(job.incident));
    }

    /** The breaker refuses. */
    ghost method Refused(job: Job, i: nat)
      requires Valid() && At(job.incident, Cleared(job, i))
      modifies this`handlers, this`steps
      ensures Valid() && handlers == old(handlers)[job.incident := Undoing(job, i)]
    {
      handlers := handlers[job.incident := Undoing(job, i)];
      steps := steps + [Trip(job.incident)];
      TookKeepsValid(Trip(job.incident));
    }

    /** One forward call, and the runtime's answer to it. */
    method CallForward(job: Job, i: nat, ok: bool)
      requires Valid() && At(job.incident, Cleared(job, i)) && i < |job.steps|
      modifies this
      ensures Valid() && Framed() && ledger == old(ledger) && status == old(status)
      ensures log == old(log) + [ForwardCall(job, i, ok)]
      ensures handlers == old(handlers)[job.incident := Returned(job, i, ok)]
    {
      log := log + [ForwardCall(job, i, ok)];
      handlers := handlers[job.incident := Returned(job, i, ok)];
      steps := steps + [Apply(job.incident, ok)];
      TookKeepsValid(Apply(job.incident, ok));
    }

    /**
      The ledger row and its audit record, both or neither.  The unit of work can fail, whether or not
      the key is taken; if it does not, a taken key was swallowed and the table is as it was.
    */
    method WriteDown(job: Job, i: nat, ok: bool, raised: bool)
      requires Valid() && At(job.incident, Returned(job, i, ok))
      modifies this
      ensures Valid() && Framed() && log == old(log) && status == old(status)
      ensures var writes := !raised && !HasRow(old(ledger), job.KeyOf(i));
        && ledger == (if writes then old(ledger) + [LedgerRow(job.KeyOf(i), ok)] else old(ledger))
        && audit == old(audit) +
             if writes then [if ok then ActionApplied(job.KeyOf(i)) else ActionFailed(job.KeyOf(i))] else []
      ensures handlers == if raised then old(handlers) - {job.incident}
                          else old(handlers)[job.incident := Continued(job, i, ok)]
    {
      var key := job.KeyOf(i);
      if raised {
        handlers := handlers - {job.incident};
      } else {
        if !HasRow(ledger, key) {
          ledger := ledger + [LedgerRow(key, ok)];
          audit := audit + [if ok then ActionApplied(key) else ActionFailed(key)];
        }
        handlers := handlers[job.incident := Continued(job, i, ok)];
      }
      steps := steps + [Write(job.incident, raised)];
      TookKeepsValid(Write(job.incident, raised));
    }

    /** One compensating call, and the runtime's answer to it. */
    method CallRollback(job: Job, k: nat, rollback: string, ok: bool)
      requires Valid() && At(job.incident, Undoing(job, k)) && 0 < k <= |job.steps|
      requires RollbackAt(job, k - 1) == Some(rollback)
      modifies this
      ensures Valid() && Framed() && ledger == old(ledger) && status == old(status)
      ensures log == old(log) + [Compensate(job.KeyOf(k - 1), rollback, job.steps[k - 1].params, ok)]
      ensures handlers == old(handlers)[job.incident := Undone(job, k, ok)]
    {
      log := log + [Compensate(job.KeyOf(k - 1), rollback, job.steps[k - 1].params, ok)];
      handlers := handlers[job.incident := Undone(job, k, ok)];
      steps := steps + [Undo(job.incident, ok)];
      TookKeepsValid(Undo(job.incident, ok));
    }

    /** The unit of work that audits a compensating call. */
    method AuditRollback(job: Job, k: nat, ok: bool)
      requires Valid() && At(job.incident, Undone(job, k, ok)) && 0 < k
      modifies this
      ensures Valid() && Framed() && ledger == old(ledger) && log == old(log) && status == old(status)
      ensures audit == old(audit) + [ActionRolledBack(job.KeyOf(k - 1), ok)]
      ensures handlers == old(handlers)[job.incident := Undoing(job, k - 1)]
    {
      audit := audit + [ActionRolledBack(job.KeyOf(k - 1), ok)];
      handlers := handlers[job.incident := Undoing(job, k - 1)];
      steps := steps + [AuditUndo(job.incident)];
      TookKeepsValid(AuditUndo(job.incident));
    }

    /** Moving past a step without a rollback, or leaving the loop after the last one. */
    ghost method PassUndo(job: Job, k: nat)
      requires Valid() && At(job.incident, Undoing(job, k)) && k <= |job.steps|
      requires k > 0 ==> RollbackAt(job, k - 1) == None
      modifies this`handlers, this`steps
      ensures Valid()
      ensures handlers == if k == 0 then old(handlers) - {job.incident}
                          else old(handlers)[job.incident := Undoing(job, k - 1)]
    {
      handlers := if k == 0 then handlers - {job.incident} else handlers[job.incident := Undoing(job, k - 1)];
      steps := steps + [Undo(job.incident, true)];
      TookKeepsValid(Undo(job.incident, true));
    }

    // ----- The executor -----

    /** One round of the step loop: the catalog checks and _execute_step. */
    method ExecuteStep(job: Job, i: nat, a: StepAnswer) returns (result: StepResult)
      requires Valid() && At(job.incident, Walking(job, i)) && i < |job.steps|
      modifies this
      ensures Valid() && Framed() && status == old(status)
      ensures result ==
        if !Doable(job, i) then Failure(false)
        else if a.dies then Interruption(None)
        else if HasSuccess(old(ledger), job.KeyOf(i)) then Skipped
        else if !a.admitted then Failure(false)
        else if !a.writes then Interruption(Some(a.ok))
        else if a.ok then Success
        else Failure(true)
      ensures var writes := (result.Success? || result == Failure(true)) && !HasRow(old(ledger), job.KeyOf(i));
        ledger == old(ledger) + if writes then [LedgerRow(job.KeyOf(i), result.Success?)] else []
      ensures log == old(log) + CallsOf(job, i, result)
      ensures match result
        case Interruption(_) => job.incident !in handlers
        case Failure(_) => At(job.incident, Undoing(job, i))
        case _ => At(job.incident, Walking(job, i + 1))
    {
      hide Next, Valid, Run, HasRow, HasSuccess;
      var step := job.steps[i];
      if step.action !in job.catalog || !job.catalog[step.action].enabled
         || !ParamsValid(step.params, job.catalog[step.action].required) {
        GiveUp(job, i);
        return Failure(false);
      }
      if a.dies {
        Die(job.incident);
        return Interruption(None);
      }
      MintCredential(job, NamespaceOf(step.params));
      var applied := LookUp(job, i);
      if applied {
        return Skipped;
      }
      if !a.admitted {
        Refused(job, i);
        return Failure(false);
      }
      CallForward(job, i, a.ok);
      WriteDown(job, i, a.ok, !a.writes);
      if !a.writes {
        return Interruption(Some(a.ok));
      }
      return if a.ok then Success else Failure(true);
    }

    /** _rollback: the applied reversible steps, in reverse, unless it is cut short. */
    method Rollback(job: Job, applied: seq<(PlanStep, CatalogEntry)>, undo: nat -> UndoAnswer)
      returns (finished: bool, left: nat, oks: seq<bool>)
      requires Valid() && At(job.incident, Undoing(job, |applied|))
      requires AppliedOf(job, applied)
      modifies this
      ensures Valid() && Framed() && ledger == old(ledger) && status == old(status) && job.incident !in handlers
      ensures left <= |applied| && |oks| == |applied| - left
      ensures if finished then left == 0 else left < |applied| && !undo(left).goes
      ensures forall k: nat :: left <= k < |applied| ==>
        oks[k - left] == undo(k).ok && (k > left || finished ==> undo(k).goes)
      ensures log == old(log) + UndoDone(job, left, |applied|, oks)
    {
      hide Next, UndoEvents, UndoDone, UndoCall, AppliedOf, RollbackAt;
      oks := [];
      assert |applied| <= |job.steps| by {
        AppliedBounded(job, applied);
      }
      NothingUndone(job, |applied|);
      left := |applied|;
      while left > 0
        invariant Valid() && Framed() && ledger == old(ledger) && status == old(status)
        invariant left <= |applied| && |oks| == |applied| - left && At(job.incident, Undoing(job, left))
        invariant forall k: nat :: left <= k < |applied| ==> oks[k - left] == undo(k).ok && undo(k).goes
        invariant log == old(log) + UndoDone(job, left, |applied|, oks)
        decreases left
      {
        UndoStep(job, applied, left, undo(left - 1));
        UndoDoneNext(job, left - 1, |applied|, [undo(left - 1).ok] + oks);
        oks := [undo(left - 1).ok] + oks;
        left := left - 1;
        if !undo(left).goes {
          return false, left, oks;
        }
      }
      PassUndo(job, 0);
      finished := true;
    }

    /** One round of the compensation loop; it is cut short before the call's audit record, or after it. */
    method UndoStep(job: Job, applied: seq<(PlanStep, CatalogEntry)>, k: nat, a: UndoAnswer)
      requires Valid() && At(job.incident, Undoing(job, k)) && 0 < k <= |applied|
      requires AppliedOf(job, applied)
      modifies this
      ensures Valid() && Framed() && ledger == old(ledger) && status == old(status)
      ensures |applied| <= |job.steps| && log == old(log) + UndoCall(job, k - 1, a.ok)
      ensures if a.goes then At(job.incident, Undoing(job, k - 1)) else job.incident !in handlers
    {
      hide Next, AppliedOf, RollbackAt;
      AppliedBounded(job, applied);
      AppliedRollback(job, applied, k - 1);
      var cat := applied[k - 1].1;
      if cat.rollback == None || cat.rollback == Some("") {
        PassUndo(job, k);
      } else {
        MintCredential(job, NamespaceOf(job.steps[k - 1].params));
        CallRollback(job, k, cat.rollback.value, a.ok);
        if a.goes {
          AuditRollback(job, k, a.ok);
        }
      }
      if !a.goes {
        Die(job.incident);
      }
    }

    /** The step loop of handle_approved; it stops early at a step that fails or whose unit of work raises. */
    method Walk(job: Job, answers: nat -> StepAnswer)
      returns (stop: Option<StepResult>, skipped: seq<bool>, applied: seq<(PlanStep, CatalogEntry)>)
      requires Valid() && At(job.incident, Walking(job, 0))
      modifies this
      ensures Valid() && Framed() && status == old(status)
      ensures |applied| == |skipped| && AppliedOf(job, applied)
      ensures SkippedByLedger(old(ledger), job, skipped) && AllPass(old(ledger), job, answers, |skipped|)
      ensures ledger == old(ledger) + RowsOf(old(ledger), job, skipped)
                        + if stop == Some(Failure(true)) then FailedRow(old(ledger), job, |skipped|) else []
      ensures stop == None ==>
        |skipped| == |job.steps| && At(job.incident, Walking(job, |skipped|))
        && log == old(log) + WalkEvents(job, skipped)
      ensures stop.Some? ==>
        && (stop.value.Failure? || stop.value.Interruption?)
        && |skipped| < |job.steps| && StopsWith(old(ledger), job, answers, |skipped|, stop.value)
        && log == old(log) + WalkEvents(job, skipped) + CallsOf(job, |skipped|, stop.value)
        && (stop.value.Failure? ==> At(job.incident, Undoing(job, |skipped|)))
        && (stop.value.Interruption? ==> job.incident !in handlers)
    {
      hide Next, Doable, WalkEvents, LedgerBeyond, SkippedByLedger, AppliedOf, HasSuccess, HasRow, CallsOf, RowsOf, AllPass;
      skipped, applied := [], [];
      NothingWalked(old(ledger), job, answers);
      while |skipped| < |job.steps|
        invariant Valid() && Framed() && status == old(status) && At(job.incident, Walking(job, |skipped|))
        invariant |skipped| <= |job.steps|
        invariant |applied| == |skipped| && AppliedOf(job, applied)
        invariant log == old(log) + WalkEvents(job, skipped)
        invariant SkippedByLedger(old(ledger), job, skipped) && AllPass(old(ledger), job, answers, |skipped|)
        invariant ledger == old(ledger) + RowsOf(old(ledger), job, skipped)
        decreases |job.steps| - |skipped|
      {
        var i := |skipped|;
        RowsAreBehind(old(ledger), job, skipped);
        BeyondAt(old(ledger), ledger, job, i);
        var result := ExecuteStep(job, i, answers(i));
        if result.Failure? || result.Interruption? {
          return Some(result), skipped, applied;
        }
        DoableIsListed(job, i);
        CallsOfPassed(job, i, result);
        SkippedNext(old(ledger), job, skipped, result.Skipped?);
        PassesNext(old(ledger), job, answers, i);
        AppliedNext(job, applied);
        WalkEventsSnoc(job, skipped, result.Skipped?);
        RowsOfSnoc(old(ledger), job, skipped, result.Skipped?);
        applied := applied + [(job.steps[i], job.catalog[job.steps[i].action])];
        skipped := skipped + [result.Skipped?];
      }
      stop := None;
    }

    /**
      handle_approved.  Whatever the outside does, the calls, rows and status are those of how it ends;
      it ends as its answers say, and if nothing dies or fails, it completes exactly if every step is
      doable and either held as a success or admitted and answered with success.
    */
    method HandleApproved(m: Message, catalog: Catalog, script: Script)
      returns (outcome: Outcome, skipped: seq<bool>, oks: seq<bool>)
      requires Valid() && m in topic && m.incident !in handlers
      modifies this
      ensures Valid() && Framed() && m.incident !in handlers
      ensures outcome.Ignored? <==> !old(Accepts(State(), m))
      ensures outcome.Ignored? ==> State() == old(State())
      ensures old(Accepts(State(), m)) ==>
        var job := old(JobOf(State(), m, catalog));
        && job.incident == m.incident && job.plan == m.plan && job.steps == plans[m.plan].steps && job.catalog == catalog
        && SkippedByLedger(old(ledger), job, skipped)
        && EndsWell(job, skipped, oks, outcome)
        && log == old(log) + EventsOf(job, skipped, oks, outcome)
        && ledger == old(ledger) + RowsWritten(old(ledger), job, skipped, outcome)
        && (script.starts ==> status == old(status)[m.plan := if outcome.Completed? then Executed else Executing])
        && (!script.starts ==> status == old(status) && outcome == Interrupted(None) && skipped == [])
        && (script.starts ==> AsScripted(old(ledger), job, script, skipped, oks, outcome))
      ensures old(Accepts(State(), m)) && NothingFails(old(JobOf(State(), m, catalog)), script) ==>
        var job := old(JobOf(State(), m, catalog));
        && (outcome.Completed? || outcome.Escalated?)
        && (outcome.Completed? <==> forall i :: 0 <= i < |job.steps| ==> Passes(old(ledger), job, script.steps, i))
    {
      hide Next, Accepts, Run, SkippedByLedger, EventsOf, RowsWritten, AsScripted, NothingFails, Passes;
      skipped, oks := [], [];
      var begun, refused := Begin(m, catalog, script.starts);
      if refused {
        return Ignored, skipped, oks;
      }
      ghost var job := old(JobOf(State(), m, catalog));
      if begun == None {
        NothingHandled(ledger, job, script.steps);
        DoesNotStart(job, script);
        return Interrupted(None), skipped, oks;
      }
      outcome, skipped, oks := Perform(begun.value, script);
      if NothingFails(job, script) {
        CompletesIff(old(ledger), job, script, skipped, oks, outcome);
      }
    }

    /** What handle_approved does after its first unit of work: the steps, and the resolution or the compensation. */
    method Perform(job: Job, script: Script) returns (outcome: Outcome, skipped: seq<bool>, oks: seq<bool>)
      requires Valid() && At(job.incident, Walking(job, 0))
      modifies this
      ensures Valid() && Framed() && job.incident !in handlers
      ensures SkippedByLedger(old(ledger), job, skipped) && EndsWell(job, skipped, oks, outcome)
      ensures log == old(log) + EventsOf(job, skipped, oks, outcome)
      ensures ledger == old(ledger) + RowsWritten(old(ledger), job, skipped, outcome)
      ensures status ==
        if outcome.Completed? && job.plan in old(status) then old(status)[job.plan := Executed] else old(status)
      ensures AsScripted(old(ledger), job, script, skipped, oks, outcome)
    {
      hide Next, WalkEvents, UndoEvents, UndoDone, SkippedByLedger, AppliedOf, FailedRun, Run, RowsOf, AllPass,
        StopsWith, CallsOf;
      oks := [];
      var stop, walked, applied := Walk(job, script.steps);
      skipped := walked;
      if stop == None {
        ResolveIncident(job, script.resolves);
        return if script.resolves then Completed else Interrupted(None), skipped, oks;
      }
      match stop.value
      case Interruption(call) =>
        InterruptionCalls(job, |skipped|, call);
        return Interrupted(call), skipped, oks;
      case Failure(called) =>
        var finished, left, answers := Rollback(job, applied, script.undo);
        oks := answers;
        if finished {
          assert forall k: nat :: k < |skipped| ==> oks[k] == oks[k - left];
          UndoDoneIsAll(job, |skipped|, oks);
          EscalationEvents(job, skipped, called, oks);
          return Escalated(called), skipped, oks;
        }
        return Abandoned(called, left), skipped, oks;
    }

    /** _resolve, in a unit of work that can fail. */
    method ResolveIncident(job: Job, resolved: bool)
      requires Valid() && At(job.incident, Walking(job, |job.steps|))
      modifies this
      ensures audit == old(audit) + if resolved then [IncidentResolved(job.incident, job.plan)] else []
      ensures Valid() && Framed() && ledger == old(ledger) && handlers == old(handlers) - {job.incident}
      ensures log == old(log) + if resolved then [Resolve(job.incident, job.plan)] else []
      ensures status == if resolved && job.plan in old(status) then old(status)[job.plan := Executed] else old(status)
    {
      if !resolved {
        Die(job.incident);
        return;
      }
      if job.plan in status {
        status := status[job.plan := Executed];
      }
      audit := audit + [IncidentResolved(job.incident, job.plan)];
      log := log + [Resolve(job.incident, job.plan)];
      handlers := handlers - {job.incident};
      steps := steps + [Check(job.incident)];
      TookKeepsValid(Check(job.incident));
    }

    /**
      A handled message that escalates, every compensating call succeeding, on a runtime that is well
      behaved for the steps it passed: the steps that the ledger let it skip are undone once more, of
      the others the irreversible effects remain, and if it skipped exactly the irreversible ones, the
      infrastructure is as it was.
    */
    method HandleOn<S(!new)>(m: Message, catalog: Catalog, script: Script,
                             ghost runtime: (string, Params, S) -> S, ghost s: S)
      returns (outcome: Outcome, skipped: seq<bool>, oks: seq<bool>)
      requires Valid() && m in topic && m.incident !in handlers
      modifies this
      ensures Valid() && (outcome.Ignored? <==> !old(Accepts(State(), m)))
      ensures outcome.Escalated? && AllOk(oks) ==>
        var job, before := old(JobOf(State(), m, catalog)), old(Replay(runtime, log, s));
        && SkippedByLedger(old(ledger), job, skipped) && |skipped| < |job.steps|
        && (WellBehaved(runtime, job, skipped) ==>
              && Replay(runtime, log, s)
                   == Replay(runtime, Kept(job, skipped), Replay(runtime, UndoSkipped(job, skipped), before))
              && (SkipsTheIrreversible(job, skipped) ==> Replay(runtime, log, s) == before))
    {
      hide Accepts, Replay, WalkEvents, UndoEvents, Kept, UndoSkipped, WellBehaved, SkippedByLedger, AllOk, Run,
        SkipsTheIrreversible;
      ghost var start := log;
      outcome, skipped, oks := HandleApproved(m, catalog, script);
      if outcome.Escalated? && AllOk(oks) {
        ghost var job := old(JobOf(State(), m, catalog));
        ReplayAppends(runtime, start, EventsOf(job, skipped, oks, outcome), s);
        if WellBehaved(runtime, job, skipped) {
          FailedRunLeaves(runtime, job, skipped, outcome.called, oks, Replay(runtime, start, s));
        }
      }
    }
  }

  /** The runtime calls of one round of the step loop. */
  function CallsOf(job: Job, i: nat, result: StepResult): seq<Event>
    requires i < |job.steps|
  {
    match result
    case Skipped => []
    case Success => [ForwardCall(job, i, true)]
    case Failure(called) => if called then [ForwardCall(job, i, false)] else []
    case Interruption(call) => if call.Some? then [ForwardCall(job, i, call.value)] else []
  }

  /** The walk is complete, or stopped at the step after the skipped or applied ones. */
  predicate EndsWell(job: Job, skipped: seq<bool>, oks: seq<bool>, outcome: Outcome) {
    match outcome
    case Ignored => false
    case Completed => |skipped| == |job.steps|
    case Escalated(_) => |skipped| < |job.steps| && |oks| == |skipped|
    case Interrupted(call) => |skipped| <= |job.steps| && (call.Some? ==> |skipped| < |job.steps|)
    case Abandoned(_, left) => left <= |skipped| < |job.steps| && |oks| == |skipped| - left
  }

  /** Everything a handler adds to the log, by how it ends. */
  function EventsOf(job: Job, skipped: seq<bool>, oks: seq<bool>, outcome: Outcome): seq<Event>
    requires EndsWell(job, skipped, oks, outcome)
  {
    match outcome
    case Completed => WalkEvents(job, skipped) + [Resolve(job.incident, job.plan)]
    case Interrupted(call) =>
      WalkEvents(job, skipped) + if call.Some? then [ForwardCall(job, |skipped|, call.value)] else []
    case Escalated(called) => FailedRun(job, skipped, called, oks)
    case Abandoned(called, left) =>
      WalkEvents(job, skipped) + CallsOf(job, |skipped|, Failure(called)) + UndoDone(job, left, |skipped|, oks)
  }

  /** Exactly the steps for which the ledger already held a success were skipped. */
  ghost predicate SkippedByLedger(ledger: seq<LedgerRow>, job: Job, skipped: seq<bool>) {
    && |skipped| <= |job.steps|
    && forall i :: 0 <= i < |skipped| ==> (skipped[i] <==> HasSuccess(ledger, job.KeyOf(i)))
  }

  lemma EscalationEvents(job: Job, skipped: seq<bool>, called: bool, oks: seq<bool>)
    requires |skipped| < |job.steps| && |oks| == |skipped|
    ensures FailedRun(job, skipped, called, oks)
         == WalkEvents(job, skipped) + CallsOf(job, |skipped|, Failure(called)) + UndoEvents(job, |skipped|, oks)
  {
  }

  /** The action is in the catalog and enabled, and the parameters are an object with all required keys. */
  predicate Doable(job: Job, i: nat)
    requires i < |job.steps|
  {
    var step := job.steps[i];
    && step.action in job.catalog && job.catalog[step.action].enabled
    && step.params.Object? && forall key :: key in job.catalog[step.action].required ==> key in step.params.fields
  }

  /** The step is done with when the handler has passed it: held as a success, or called with success. */
  predicate Passes(ledger: seq<LedgerRow>, job: Job, answers: nat -> StepAnswer, i: nat)
    requires i < |job.steps|
  {
    Doable(job, i) && (LedgerRow(job.KeyOf(i), true) in ledger || (answers(i).admitted && answers(i).ok))
  }

  ghost predicate AllPass(ledger: seq<LedgerRow>, job: Job, answers: nat -> StepAnswer, n: nat) {
    n <= |job.steps| && forall i :: 0 <= i < n ==> Passes(ledger, job, answers, i)
  }

  /** The walk stops at step i: because it does not pass, or because something dies or fails. */
  ghost predicate StopsWith(ledger: seq<LedgerRow>, job: Job, answers: nat -> StepAnswer, i: nat, stop: StepResult)
    requires i < |job.steps|
  {
    var calls := Doable(job, i) && LedgerRow(job.KeyOf(i), true) !in ledger && answers(i).admitted;
    match stop
    case Failure(called) => !Passes(ledger, job, answers, i) && (called <==> calls)
    case Interruption(None) => answers(i).dies
    case Interruption(Some(ok)) => calls && ok == answers(i).ok && !answers(i).writes
    case _ => false
  }

  /** The outcome, and what was answered in the compensation, are as the script says. */
  ghost predicate AsScripted(ledger: seq<LedgerRow>, job: Job, script: Script, skipped: seq<bool>, oks: seq<bool>,
                             outcome: Outcome)
    requires EndsWell(job, skipped, oks, outcome)
  {
    && AllPass(ledger, job, script.steps, |skipped|)
    && match outcome
       case Completed => script.resolves
       case Interrupted(call) =>
         if |skipped| == |job.steps| then !script.resolves
         else StopsWith(ledger, job, script.steps, |skipped|, Interruption(call))
       case Escalated(called) =>
         && StopsWith(ledger, job, script.steps, |skipped|, Failure(called))
         && forall k: nat :: k < |skipped| ==> oks[k] == script.undo(k).ok && script.undo(k).goes
       case Abandoned(called, left) =>
         && StopsWith(ledger, job, script.steps, |skipped|, Failure(called))
         && left < |skipped| && !script.undo(left).goes
         && forall k: nat :: left <= k < |skipped| ==>
              oks[k - left] == script.undo(k).ok && (k > left ==> script.undo(k).goes)
  }

  /** The process does not die, and no unit of work fails, while the job is handled. */
  ghost predicate NothingFails(job: Job, script: Script) {
    && script.starts && script.resolves
    && forall i: nat :: i < |job.steps| ==> !script.steps(i).dies && script.steps(i).writes && script.undo(i).goes
  }

  /** The rows of the steps that were called with success and whose keys were free. */
  function RowsOf(ledger: seq<LedgerRow>, job: Job, skipped: seq<bool>): seq<LedgerRow> {
    if skipped == [] then []
    else
      var n := |skipped| - 1;
      RowsOf(ledger, job, skipped[..n]) +
        if skipped[n] || HasRow(ledger, job.KeyOf(n)) then [] else [LedgerRow(job.KeyOf(n), true)]
  }

  function FailedRow(ledger: seq<LedgerRow>, job: Job, i: nat): seq<LedgerRow> {
    if HasRow(ledger, job.KeyOf(i)) then [] else [LedgerRow(job.KeyOf(i), false)]
  }

  /** All rows that the handler has written, by how it ends. */
  function RowsWritten(ledger: seq<LedgerRow>, job: Job, skipped: seq<bool>, outcome: Outcome): seq<LedgerRow> {
    RowsOf(ledger, job, skipped) +
      if (outcome.Escalated? || outcome.Abandoned?) && outcome.called then FailedRow(ledger, job, |skipped|) else []
  }

  lemma NothingWalked(ledger: seq<LedgerRow>, job: Job, answers: nat -> StepAnswer)
    ensures SkippedByLedger(ledger, job, []) && AllPass(ledger, job, answers, 0)
    ensures AppliedOf(job, []) && WalkEvents(job, []) == [] && RowsOf(ledger, job, []) == []
  {
  }

  lemma NothingHandled(ledger: seq<LedgerRow>, job: Job, answers: nat -> StepAnswer)
    ensures SkippedByLedger(ledger, job, [])
    ensures EventsOf(job, [], [], Interrupted(None)) == []
    ensures RowsWritten(ledger, job, [], Interrupted(None)) == []
  {
    NothingWalked(ledger, job, answers);
  }

  lemma DoesNotStart(job: Job, script: Script)
    requires !script.starts
    ensures !NothingFails(job, script)
  {
  }

  lemma InterruptionCalls(job: Job, i: nat, call: Option<bool>)
    requires i < |job.steps|
    ensures CallsOf(job, i, Interruption(call)) == if call.Some? then [ForwardCall(job, i, call.value)] else []
  {
  }

  /** If nothing fails, the answers alone decide how the message ends: completed exactly if all steps pass. */
  lemma CompletesIff(ledger: seq<LedgerRow>, job: Job, script: Script, skipped: seq<bool>, oks: seq<bool>, outcome: Outcome)
    requires EndsWell(job, skipped, oks, outcome) && AsScripted(ledger, job, script, skipped, oks, outcome)
    requires NothingFails(job, script)
    ensures outcome.Completed? || outcome.Escalated?
    ensures outcome.Completed? <==> forall i :: 0 <= i < |job.steps| ==> Passes(ledger, job, script.steps, i)
  {
    hide Passes, Doable;
  }

  lemma DoableIsListed(job: Job, i: nat)
    requires i < |job.steps| && Doable(job, i)
    ensures job.steps[i].action in job.catalog
  {
  }

  lemma PassesNext(ledger: seq<LedgerRow>, job: Job, answers: nat -> StepAnswer, i: nat)
    requires AllPass(ledger, job, answers, i) && i < |job.steps| && Passes(ledger, job, answers, i)
    ensures AllPass(ledger, job, answers, i + 1)
  {
    hide Passes;
  }

  /** The rows written so far are all of steps behind, so about the others the ledger says what it said. */
  lemma {:induction false} RowsAreBehind(ledger: seq<LedgerRow>, job: Job, skipped: seq<bool>)
    ensures LedgerBeyond(ledger, ledger + RowsOf(ledger, job, skipped), job, |skipped|)
  {
    if skipped == [] {
      assert ledger + RowsOf(ledger, job, skipped) == ledger;
    } else {
      var n := |skipped| - 1;
      var now := ledger + RowsOf(ledger, job, skipped[..n]);
      RowsAreBehind(ledger, job, skipped[..n]);
      var row := LedgerRow(job.KeyOf(n), true);
      if skipped[n] || HasRow(ledger, job.KeyOf(n)) {
        assert ledger + RowsOf(ledger, job, skipped) == now;
      } else {
        assert ledger + RowsOf(ledger, job, skipped) == now + [row];
        LedgerBeyondNext(ledger, now, row, job, n);
      }
    }
  }

  lemma BeyondAt(before: seq<LedgerRow>, now: seq<LedgerRow>, job: Job, i: nat)
    requires LedgerBeyond(before, now, job, i)
    ensures HasSuccess(now, job.KeyOf(i)) <==> HasSuccess(before, job.KeyOf(i))
    ensures HasRow(now, job.KeyOf(i)) <==> HasRow(before, job.KeyOf(i))
    ensures HasSuccess(before, job.KeyOf(i)) <==> LedgerRow(job.KeyOf(i), true) in before
  {
  }

  lemma RowsOfSnoc(ledger: seq<LedgerRow>, job: Job, skipped: seq<bool>, skip: bool)
    ensures RowsOf(ledger, job, skipped + [skip]) == RowsOf(ledger, job, skipped) +
      if skip || HasRow(ledger, job.KeyOf(|skipped|)) then [] else [LedgerRow(job.KeyOf(|skipped|), true)]
  {
    assert (skipped + [skip])[..|skipped|] == skipped;
  }

  lemma CallsOfPassed(job: Job, i: nat, result: StepResult)
    requires i < |job.steps| && (result.Skipped? || result.Success?)
    ensures CallsOf(job, i, result) == if result.Skipped? then [] else [ForwardCall(job, i, true)]
  {
  }

  lemma SkippedNext(ledger: seq<LedgerRow>, job: Job, skipped: seq<bool>, skip: bool)
    requires SkippedByLedger(ledger, job, skipped) && |skipped| < |job.steps|
    requires skip <==> HasSuccess(ledger, job.KeyOf(|skipped|))
    ensures SkippedByLedger(ledger, job, skipped + [skip])
  {
  }

  lemma AppliedBounded(job: Job, applied: seq<(PlanStep, CatalogEntry)>)
    requires AppliedOf(job, applied)
    ensures |applied| <= |job.steps|
  {
  }

  /** The entry that was remembered for step i names the rollback that the catalog gives it. */
  lemma AppliedRollback(job: Job, applied: seq<(PlanStep, CatalogEntry)>, i: nat)
    requires AppliedOf(job, applied) && i < |applied|
    ensures RollbackAt(job, i)
         == if applied[i].1.rollback == None || applied[i].1.rollback == Some("") then None else applied[i].1.rollback
  {
  }

  lemma NothingUndone(job: Job, n: nat)
    requires n <= |job.steps|
    ensures UndoDone(job, n, n, []) == []
  {
  }

  lemma AppliedNext(job: Job, applied: seq<(PlanStep, CatalogEntry)>)
    requires AppliedOf(job, applied) && |applied| < |job.steps| && job.steps[|applied|].action in job.catalog
    ensures AppliedOf(job, applied + [(job.steps[|applied|], job.catalog[job.steps[|applied|].action])])
  {
  }

  /** `applied` holds the job's first steps with their catalog entries. */
  ghost predicate AppliedOf(job: Job, applied: seq<(PlanStep, CatalogEntry)>) {
    && |applied| <= |job.steps|
    && forall i :: 0 <= i < |applied| ==>
         && applied[i].0 == job.steps[i] && job.steps[i].action in job.catalog
         && applied[i].1 == job.catalog[job.steps[i].action]
  }

  /** About the steps from i on, the two ledgers say the same. */
  ghost predicate LedgerBeyond(before: seq<LedgerRow>, now: seq<LedgerRow>, job: Job, i: nat) {
    forall j: nat :: i <= j ==>
      && (HasSuccess(now, job.KeyOf(j)) <==> HasSuccess(before, job.KeyOf(j)))
      && (HasRow(now, job.KeyOf(j)) <==> HasRow(before, job.KeyOf(j)))
  }

  lemma LedgerBeyondNext(before: seq<LedgerRow>, now: seq<LedgerRow>, row: LedgerRow, job: Job, i: nat)
    requires LedgerBeyond(before, now, job, i) && row.key == job.KeyOf(i)
    ensures LedgerBeyond(before, now + [row], job, i + 1)
  {
    forall j: nat | i + 1 <= j
      ensures HasSuccess(now + [row], job.KeyOf(j)) <==> HasSuccess(now, job.KeyOf(j))
      ensures HasRow(now + [row], job.KeyOf(j)) <==> HasRow(now, job.KeyOf(j))
    {
      if HasRow(now, job.KeyOf(j)) {
        var r :| r in now && r.key == job.KeyOf(j);
        assert r in now + [row];
      }
    }
  }

  lemma WalkEventsSnoc(job: Job, skipped: seq<bool>, skip: bool)
    requires |skipped| < |job.steps|
    ensures WalkEvents(job, skipped + [skip])
         == WalkEvents(job, skipped) + if skip then [] else [ForwardCall(job, |skipped|, true)]
  {
    assert (skipped + [skip])[..|skipped|] == skipped;
  }

  function UndoCall(job: Job, k: nat, ok: bool): seq<Event>
    requires k < |job.steps|
  {
    match RollbackAt(job, k)
    case None => []
    case Some(rollback) => [Compensate(job.KeyOf(k), rollback, job.steps[k].params, ok)]
  }

  /** The compensating calls for the steps n-1, ..., k, with the answers for the steps k to n-1. */
  function UndoDone(job: Job, k: nat, n: nat, oks: seq<bool>): seq<Event>
    requires k <= n <= |job.steps| && |oks| == n - k
    decreases n - k
  {
    if k == n then [] else UndoDone(job, k + 1, n, oks[1..]) + UndoCall(job, k, oks[0])
  }

  lemma UndoDoneNext(job: Job, k: nat, n: nat, oks: seq<bool>)
    requires k < n <= |job.steps| && |oks| == n - k
    ensures UndoDone(job, k, n, oks) == UndoDone(job, k + 1, n, oks[1..]) + UndoCall(job, k, oks[0])
  {
  }

  lemma {:induction false} UndoDoneThenRest(job: Job, k: nat, n: nat, oks: seq<bool>)
    requires k <= n <= |job.steps| && |oks| == n
    ensures UndoDone(job, k, n, oks[k..]) + UndoEvents(job, k, oks) == UndoEvents(job, n, oks)
    decreases n - k
  {
    if k < n {
      UndoDoneThenRest(job, k + 1, n, oks);
      assert oks[k..][1..] == oks[k + 1..];
    }
  }

  lemma UndoDoneIsAll(job: Job, n: nat, oks: seq<bool>)
    requires n <= |job.steps| && |oks| == n
    ensures UndoDone(job, 0, n, oks) == UndoEvents(job, n, oks)
  {
    UndoDoneThenRest(job, 0, n, oks);
    assert oks[0..] == oks;
  }
}
