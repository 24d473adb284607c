/**
  What the action path guarantees over every run: single decisions, idempotence through the ledger,
  what is compensated, and what a plan marked executed means.
*/
module RemediationResults {
  import opened Options
  import opened Remediation
  import opened RemediationAuthority
  import opened RemediationRuns
  import opened RemediationSafety

  // ----- Decisions -----

  /** No session commits a decision late: each saw the plan proposed and still finds it so. */
  ghost predicate Timely(steps: seq<Step>) {
    forall i :: 0 <= i < |steps| && steps[i].Decide? ==> !steps[i].late
  }

  ghost predicate DecidedEach(log: seq<Event>) {
    forall i, j :: 0 <= i < j < |log| && log[i].Decided? && log[j].Decided? ==> log[i].record.plan != log[j].record.plan
  }

  lemma HandlersDecideNothing(w: World, inc: IncidentId, flag: bool)
    ensures forall w' :: w' in {Checking(w, inc), Applying(w, inc, flag), UndoOne(w, inc, flag)} ==>
      |w'.log| > |w.log| ==> !w'.log[|w.log|].Decided?
    ensures Tripping(w, inc).log == Writing(w, inc, flag).log == AuditingUndo(w, inc).log == w.log
  {
    hide Runnable, HasRow, HasSuccess, RollbackOf;
  }

  /** Only a decision adds one to the log. */
  lemma NewDecision(w: World, s: Step)
    requires |Next(w, s).log| > |w.log| && Next(w, s).log[|w.log|].Decided?
    ensures s.Decide? && Next(w, s).log[|w.log|].record.plan == s.plan && s.plan in w.status
    ensures w.status[s.plan] == Proposed || s.late
  {
    hide Accepts, Checking, Tripping, Applying, Writing, UndoOne, AuditingUndo;
    match s
    case Check(inc) => HandlersDecideNothing(w, inc, true);
    case Trip(inc) => HandlersDecideNothing(w, inc, true);
    case Apply(inc, ok) => HandlersDecideNothing(w, inc, ok);
    case Write(inc, raises) => HandlersDecideNothing(w, inc, raises);
    case Undo(inc, ok) => HandlersDecideNothing(w, inc, ok);
    case AuditUndo(inc) => HandlersDecideNothing(w, inc, true);
    case _ =>
  }

  lemma {:induction false} TimelyMeansOnce(steps: seq<Step>)
    requires Timely(steps)
    ensures DecidedEach(Run(steps).log)
  {
    hide Next, Inv;
    if steps == [] {
    } else {
      var earlier, s := steps[..|steps| - 1], steps[|steps| - 1];
      TimelyMeansOnce(earlier);
      RunKeeps(earlier);
      NextIsQuiet(Run(earlier), s);
      OneMoreDecision(Run(earlier), s);
    }
  }

  lemma OneMoreDecision(w: World, s: Step)
    requires Inv(w) && DecidedEach(w.log) && Appends(w, Next(w, s)) && (s.Decide? ==> !s.late)
    ensures DecidedEach(Next(w, s).log)
  {
    hide Next, PlansKnown, MessagesGenuine, LedgerSound, StatusSound, LogJustified, HandlersSound, AuditMatches;
    var log := Next(w, s).log;
    if |log| > |w.log| && log[|w.log|].Decided? {
      NewDecision(w, s);
      forall i | 0 <= i < |w.log| && w.log[i].Decided?
        ensures w.log[i].record.plan != s.plan
      {
        assert w.log[i] in w.log;
        assert DecisionKnown(w, w.log[i].record);
      }
    }
  }

  /**
    If no decision comes late, a plan gets at most one; in any case a decided plan is not proposed any
    more.  If besides what is delivered with a valid signature matches its record, a rejected plan is
    never acted on or marked executing or executed.
  */
  lemma DecidedOnce(steps: seq<Step>, i: nat, j: nat)
    requires i < |Run(steps).log| && j < |Run(steps).log| && Run(steps).log[i].Decided?
    ensures var w := Run(steps);
      var r := w.log[i].record;
      && (r.plan in w.status ==> w.status[r.plan] != Proposed)
      && (Timely(steps) && i != j && w.log[j].Decided? ==> w.log[j].record.plan != r.plan)
      && (Timely(steps) && OnlyMatching(steps) && r.verdict == Reject ==>
            && ((w.log[j].Forward? || w.log[j].Compensate?) ==> w.log[j].key.plan != r.plan)
            && (r.plan in w.status ==> w.status[r.plan] !in {Executing, Executed}))
  {
    hide Run, OnlyMatching, Timely, MessagesGenuine, LedgerSound, StatusSound, LogJustified;
    RunKeeps(steps);
    var w := Run(steps);
    assert w.log[i] in w.log;
    assert DecisionKnown(w, w.log[i].record);
    if Timely(steps) {
      TimelyMeansOnce(steps);
      if OnlyMatching(steps) && w.log[i].record.verdict == Reject {
        RejectedIsNotApproved(w.log, i);
        RejectedIsNotActedOn(steps, w.log[i].record.plan, j);
      }
    }
  }

  lemma RejectedIsNotApproved(log: seq<Event>, i: nat)
    requires DecidedEach(log) && i < |log| && log[i].Decided? && log[i].record.verdict == Reject
    ensures !ApprovedPlan(log, log[i].record.plan)
  {
    forall a | 0 <= a < |log| && log[a].Decided? && log[a].record.plan == log[i].record.plan
      ensures log[a].record.verdict == Reject
    {
    }
  }

  /** A plan that was never approved is not called on, and not executing or executed. */
  lemma RejectedIsNotActedOn(steps: seq<Step>, p: PlanId, j: nat)
    requires OnlyMatching(steps) && !ApprovedPlan(Run(steps).log, p) && j < |Run(steps).log|
    ensures var w := Run(steps);
      && ((w.log[j].Forward? || w.log[j].Compensate?) ==> w.log[j].key.plan != p)
      && (p in w.status ==> w.status[p] !in {Executing, Executed})
  {
    hide Run, OnlyMatching;
    var w := Run(steps);
    if (w.log[j].Forward? || w.log[j].Compensate?) && w.log[j].key.plan == p {
      CallsAreAuthorized(steps, j);
      ApprovalBefore(w.log, j);
    }
    if p in w.status && w.status[p] in {Executing, Executed} {
      ExecutingMeansApproved(steps, p);
    }
  }

  lemma ApprovalBefore(log: seq<Event>, j: nat)
    requires j < |log| && (log[j].Forward? || log[j].Compensate?)
    requires exists i :: 0 <= i < j && IsApproval(log[i], log[j].key.incident, log[j].key.plan, log[j].key.token)
    ensures ApprovedPlan(log, log[j].key.plan)
  {
    var i :| 0 <= i < j && IsApproval(log[i], log[j].key.incident, log[j].key.plan, log[j].key.token);
    assert log[i] in log;
  }

  // ----- Rejected after an approval -----

  /** Every approval that was taken has its message on the way, or on the topic. */
  ghost predicate ApprovalsTravel(w: World) {
    forall e :: e in w.log && e.Decided? && e.record.verdict == Approve ==>
      MessageOf(e.record) in w.unsent || MessageOf(e.record) in w.topic
  }

  lemma MessagesStay(w: World, s: Step, m: Message)
    requires m in w.unsent || m in w.topic
    ensures m in Next(w, s).unsent || m in Next(w, s).topic
  {
    hide Accepts, Runnable, HasRow, HasSuccess, RollbackOf;
  }

  lemma NewApprovalTravels(w: World, s: Step)
    requires |Next(w, s).log| > |w.log| && Next(w, s).log[|w.log|].Decided?
    requires Next(w, s).log[|w.log|].record.verdict == Approve
    ensures MessageOf(Next(w, s).log[|w.log|].record) in Next(w, s).unsent
  {
    hide Accepts, Checking, Tripping, Applying, Writing, UndoOne, AuditingUndo;
    NewDecision(w, s);
  }

  lemma {:induction false} RunTravels(steps: seq<Step>)
    ensures ApprovalsTravel(Run(steps))
  {
    hide Next;
    if steps == [] {
    } else {
      var w, s := Run(steps[..|steps| - 1]), steps[|steps| - 1];
      RunTravels(steps[..|steps| - 1]);
      NextIsQuiet(w, s);
      forall e | e in Next(w, s).log && e.Decided? && e.record.verdict == Approve
        ensures MessageOf(e.record) in Next(w, s).unsent || MessageOf(e.record) in Next(w, s).topic
      {
        if e in w.log {
          MessagesStay(w, s, MessageOf(e.record));
        } else {
          NewApprovalTravels(w, s);
        }
      }
    }
  }

  /** The incident of the plan has a fencing token that an approval can match. */
  predicate Fenced(w: World, p: PlanId) {
    && p in w.plans && w.plans[p].incident in w.incidents
    && w.incidents[w.plans[p].incident].Some? && w.incidents[w.plans[p].incident].value != 0
  }

  /** The plan is not executing, and nothing is there that could make it. */
  ghost predicate Stopped(w: World, p: PlanId) {
    && p in w.plans && w.plans[p].incident in w.incidents
    && !(ApprovedPlan(w.log, p) && Fenced(w, p)) && (p in w.status ==> w.status[p] != Executing)
  }

  lemma ExecutingStarts(w: World, s: Step, p: PlanId)
    requires !s.Deliver? && p in Next(w, s).status && Next(w, s).status[p] == Executing
    ensures p in w.status && w.status[p] == Executing
  {
    hide Accepts, Runnable, HasRow, HasSuccess, RollbackOf;
  }

  lemma DeliveryStartsApproved(steps: seq<Step>, m: Message, catalog: Catalog, p: PlanId)
    requires Admissible(Run(steps), m) && Stopped(Run(steps), p)
    ensures var w' := Delivering(Run(steps), m, catalog); p in w'.status ==> w'.status[p] != Executing
  {
    hide Run, Stopped;
    var w := Run(steps);
    if m in w.topic && m.incident !in w.handlers && Accepts(w, m) && m.plan == p {
      RunKeeps(steps);
      AcceptedRecordApprovesIff(steps, m);
      ApprovedAndFenced(w, m);
    } else {
      StoppedIsNotExecuting(w, p);
    }
  }

  lemma StoppedIsNotExecuting(w: World, p: PlanId)
    requires Stopped(w, p)
    ensures p in w.status ==> w.status[p] != Executing
  {
  }

  lemma ApprovedAndFenced(w: World, m: Message)
    requires DecisionsKnown(w) && Accepts(w, m) && ApprovedBy(w.log, m, w.incidents[m.incident].GetOr(0))
    ensures !Stopped(w, m.plan)
  {
    assert DecisionKnown(w, m.claim.record);
    assert Decided(m.claim.record) in w.log;
  }

  lemma NoNewApproval(w: World, s: Step, p: PlanId)
    requires Appends(w, Next(w, s)) && !(s.Decide? && s.plan == p) && ApprovedPlan(Next(w, s).log, p)
    ensures ApprovedPlan(w.log, p)
  {
    hide Next;
    var log := Next(w, s).log;
    var e :| e in log && e.Decided? && e.record.plan == p && e.record.verdict == Approve;
    var i :| 0 <= i < |log| && log[i] == e;
    if i >= |w.log| {
      NewDecision(w, s);
    } else {
      assert e in w.log;
    }
  }

  lemma RowsStay(w: World, s: Step, p: PlanId)
    requires p in w.plans && w.plans[p].incident in w.incidents
    ensures p in Next(w, s).plans && Next(w, s).plans[p] == w.plans[p]
    ensures w.plans[p].incident in Next(w, s).incidents
    ensures Next(w, s).incidents[w.plans[p].incident] == w.incidents[w.plans[p].incident]
  {
    hide Accepts, Runnable, HasRow, HasSuccess, RollbackOf;
  }

  lemma NextStopped(steps: seq<Step>, s: Step, p: PlanId)
    requires Stopped(Run(steps), p) && !(s.Decide? && s.plan == p)
    requires s.Deliver? ==> Admissible(Run(steps), s.message)
    ensures Stopped(Next(Run(steps), s), p)
  {
    hide Run, Next, ApprovedPlan, Admissible;
    var w := Run(steps);
    NextIsQuiet(w, s);
    RowsStay(w, s, p);
    if ApprovedPlan(Next(w, s).log, p) {
      NoNewApproval(w, s, p);
    }
    if s.Deliver? {
      DeliveryStartsApproved(steps, s.message, s.catalog, p);
      NextDelivers(w, s.message, s.catalog);
    } else if p in Next(w, s).status && Next(w, s).status[p] == Executing {
      ExecutingStarts(w, s, p);
    }
  }

  /** The plan is not decided in these steps. */
  ghost predicate LeavesUndecided(more: seq<Step>, p: PlanId) {
    forall i :: 0 <= i < |more| && more[i].Decide? ==> more[i].plan != p
  }

  lemma {:induction false} StaysStopped(steps: seq<Step>, more: seq<Step>, p: PlanId)
    requires Stopped(Run(steps), p) && OnlyMatching(steps + more) && LeavesUndecided(more, p)
    ensures Stopped(Run(steps + more), p)
  {
    hide Run, Next, Stopped, Admissible;
    if more == [] {
      assert steps + more == steps;
    } else {
      var fewer, s := more[..|more| - 1], more[|more| - 1];
      var n := |steps + more| - 1;
      assert (steps + more)[..n] == steps + fewer && (steps + more)[n] == s;
      OnlyMatchingPrefix(steps + more, n);
      StaysStopped(steps, fewer, p);
      RunSnoc(steps, more);
      NextStopped(steps + fewer, s, p);
    }
  }

  /** Publish the approval if that is still to do, end the incident's handler if there is one, deliver. */
  lemma ApprovalStarts(steps: seq<Step>, p: PlanId) returns (more: seq<Step>)
    requires OnlyMatching(steps) && p in Run(steps).status && ApprovedPlan(Run(steps).log, p) && Fenced(Run(steps), p)
    ensures OnlyMatching(steps + more) && LeavesUndecided(more, p)
    ensures p in Run(steps + more).status && Run(steps + more).status[p] == Executing
  {
    hide Run, Next, Inv, Accepts, OnlyMatching, ApprovalsTravel;
    var w := Run(steps);
    RunKeeps(steps);
    RunTravels(steps);
    var e :| e in w.log && e.Decided? && e.record.plan == p && e.record.verdict == Approve;
    var m := MessageOf(e.record);
    TravelsBy(w, e);
    var s0, s1, s2 := Publish(m), Crash(m.incident), Deliver(m, map[]);
    more := [s0, s1, s2];
    Delivered(w, e.record);
    assert steps + more == steps + [s0] + [s1] + [s2];
    RunSnocOne(steps, s0);
    RunSnocOne(steps + [s0], s1);
    RunSnocOne(steps + [s0] + [s1], s2);
    MatchingSnoc(steps, s0);
    MatchingSnoc(steps + [s0], s1);
    MatchingSnoc(steps + [s0] + [s1], s2);
  }

  lemma TravelsBy(w: World, e: Event)
    requires ApprovalsTravel(w) && e in w.log && e.Decided? && e.record.verdict == Approve
    ensures MessageOf(e.record) in w.unsent || MessageOf(e.record) in w.topic
  {
  }

  lemma MatchingSnoc(steps: seq<Step>, s: Step)
    requires OnlyMatching(steps) && (s.Deliver? ==> Matches(s.message))
    ensures OnlyMatching(steps + [s])
  {
    hide Run, Matches;
    forall i | 0 <= i < |steps + [s]| && (steps + [s])[i].Deliver?
      ensures Admissible(Run((steps + [s])[..i]), (steps + [s])[i].message)
    {
      assert (steps + [s])[..i] == steps[..i];
      if i < |steps| {
        assert Admissible(Run(steps[..i]), steps[i].message);
      }
    }
  }

  lemma Delivered(w: World, r: Record)
    requires Inv(w) && Decided(r) in w.log && r.verdict == Approve && r.plan in w.status && Fenced(w, r.plan)
    requires MessageOf(r) in w.unsent || MessageOf(r) in w.topic
    ensures var m := MessageOf(r);
      var w' := Next(Next(Next(w, Publish(m)), Crash(m.incident)), Deliver(m, map[]));
      r.plan in w'.status && w'.status[r.plan] == Executing
  {
    hide PlansKnown, MessagesGenuine, LedgerSound, StatusSound, LogJustified, HandlersSound, AuditMatches;
    assert DecisionKnown(w, r);
  }

  /**
    When a plan whose row says rejected can run, if all that is delivered with a valid signature
    matches and no one decides it again: exactly if it was approved as well, and its incident has a
    fencing token.  The executor does not look at the plan's status.
  */
  lemma RejectedRunsIff(steps: seq<Step>, p: PlanId)
    requires OnlyMatching(steps) && p in Run(steps).status && Run(steps).status[p] == Rejected
    ensures ApprovedPlan(Run(steps).log, p) && Fenced(Run(steps), p) <==>
      exists more :: OnlyMatching(steps + more) && LeavesUndecided(more, p)
                  && p in Run(steps + more).status && Run(steps + more).status[p] == Executing
  {
    hide Run, OnlyMatching, ApprovedPlan, LeavesUndecided;
    var w := Run(steps);
    RunKeeps(steps);
    if ApprovedPlan(w.log, p) && Fenced(w, p) {
      var more := ApprovalStarts(steps, p);
      assert OnlyMatching(steps + more) && LeavesUndecided(more, p);
    } else {
      assert Stopped(w, p);
      forall more | OnlyMatching(steps + more) && LeavesUndecided(more, p)
        ensures p in Run(steps + more).status ==> Run(steps + more).status[p] != Executing
      {
        StaysStopped(steps, more, p);
      }
    }
  }

  /** The plan of these steps was approved and then rejected, and then starts to execute without another decision. */
  ghost predicate RunsThoughRejected(steps: seq<Step>, more: seq<Step>, p: PlanId, planSteps: seq<PlanStep>) {
    var w, w' := Run(steps), Run(steps + more);
    && OnlyMatching(steps + more) && LeavesUndecided(more, p)
    && p in w.plans && w.plans[p].steps == planSteps
    && p in w.status && w.status[p] == Rejected && p in w'.status && w'.status[p] == Executing
    && |w.log| == 2 && w.log[0].Decided? && w.log[0].record.plan == p && w.log[0].record.verdict == Approve
    && w.log[1].Decided? && w.log[1].record.plan == p && w.log[1].record.verdict == Reject
  }

  /** It does happen: an approval, a rejection by a session that had seen the plan proposed, and the plan runs. */
  lemma LateRejectionRuns(planSteps: seq<PlanStep>)
    requires planSteps != []
    ensures exists steps, more, p :: RunsThoughRejected(steps, more, p, planSteps)
  {
    hide Run, RunOf, LeavesUndecided;
    var record := Record(7, 1, Approve, "ops", Some(5));
    var m := MessageOf(record);
    var approving := [OpenIncident(1, Some(5)), Propose(7, 1, planSteps), Decide(7, Approve, "ops", false), Publish(m)];
    var rejecting := Decide(7, Reject, "lead", true);
    var steps := approving + [rejecting];
    ApprovedWorld(planSteps);
    RunIsRunOf(approving);
    RunSnocOne(approving, rejecting);
    ProducerMatches(steps);
    var w := Run(steps);
    assert w.log == [Decided(record)] + [Decided(Record(7, 1, Reject, "lead", Some(5)))];
    assert Decided(record) in w.log;
    var more := ApprovalStarts(steps, 7);
    assert RunsThoughRejected(steps, more, 7, planSteps);
  }

  // ----- Calls -----

  /** A step is only compensated after a successful forward call of that step. */
  lemma CompensatesWhatSucceeded(steps: seq<Step>, k: nat)
    requires k < |Run(steps).log| && Run(steps).log[k].Compensate?
    ensures var log := Run(steps).log;
      exists j :: 0 <= j < k && IsSuccess(log[j], log[k].key.plan, log[k].key.ordinal)
  {
    hide Run, PlansKnown, MessagesGenuine, DecisionsKnown, LedgerSound, StatusSound;
    RunKeeps(steps);
    var w := Run(steps);
    assert Justified(w, w.log[..k], w.log[k]);
    EarlierSuccess(w.log, k, w.log[k].key.plan, w.log[k].key.ordinal);
  }

  lemma EarlierSuccess(log: seq<Event>, k: nat, plan: PlanId, ordinal: nat)
    requires k <= |log| && Done(log[..k], plan, ordinal)
    ensures exists j :: 0 <= j < k && IsSuccess(log[j], plan, ordinal)
  {
    var d :| d in log[..k] && IsSuccess(d, plan, ordinal);
    var i :| 0 <= i < k && log[..k][i] == d;
    assert log[i] == d;
  }

  // ----- What never goes back -----

  /** p is known and no longer, or not any more, a proposed plan. */
  predicate Left(w: World, p: PlanId) {
    p in w.plans && (p !in w.status || w.status[p] != Proposed)
  }

  lemma NextLeaves(w: World, s: Step, p: PlanId)
    requires PlansKnown(w) && Left(w, p)
    ensures Left(Next(w, s), p)
  {
    hide Accepts, Runnable, HasRow, HasSuccess;
  }

  /** Ledger, audit records and log only grow at the end, and a plan leaves `proposed` for good. */
  lemma {:induction false} HistoryIsFinal(steps: seq<Step>, more: seq<Step>)
    ensures var w, w' := Run(steps), Run(steps + more);
      && w.ledger <= w'.ledger && w.log <= w'.log && w.audit <= w'.audit
      && (forall p :: Left(w, p) ==> Left(w', p))
  {
    hide Next;
    if more == [] {
      assert steps + more == steps;
    } else {
      var fewer := more[..|more| - 1];
      HistoryIsFinal(steps, fewer);
      RunSnoc(steps, more);
      var v, s := Run(steps + fewer), more[|more| - 1];
      RunKeeps(steps + fewer);
      NextIsQuiet(v, s);
      forall p | Left(Run(steps), p)
        ensures Left(Next(v, s), p)
      {
        NextLeaves(v, s, p);
      }
    }
  }

  // ----- Idempotence -----

  lemma NextDoesNotReapply(w: World, s: Step, key: Key)
    requires Inv(w) && HasSuccess(w.ledger, key)
    requires |Next(w, s).log| == |w.log| + 1 && Next(w, s).log[|w.log|].Forward?
    ensures Next(w, s).log[|w.log|].key != key
  {
    hide PlansKnown, MessagesGenuine, DecisionsKnown, LedgerSound, LogJustified, StatusSound;
    hide Proposing, Deciding, Injecting, Minting, Delivering, Checking, Tripping, Writing, UndoOne, AuditingUndo;
    NextIsQuiet(w, s);
    assert s.Apply?;
    assert HandlerSound(w, s.incident, w.handlers[s.incident]);
  }

  /**
    Once a success row for a key is committed, no later step of any run applies that step forward
    again under that key, whatever is redelivered and wherever handlers crash.
  */
  lemma {:induction false} NoReapplyAfterSuccess(steps: seq<Step>, more: seq<Step>, key: Key, k: nat)
    requires HasSuccess(Run(steps).ledger, key)
    requires |Run(steps).log| <= k < |Run(steps + more).log|
    requires Run(steps + more).log[k].Forward?
    ensures Run(steps + more).log[k].key != key
  {
    hide Next, Inv;
    assert more == [] ==> steps + more == steps;
    if more == [] {
    } else {
      var fewer, s := more[..|more| - 1], more[|more| - 1];
      var v := Run(steps + fewer);
      RunSnoc(steps, more);
      NextIsQuiet(v, s);
      if k < |v.log| {
        NoReapplyAfterSuccess(steps, fewer, key, k);
      } else {
        HistoryIsFinal(steps, fewer);
        SuccessStays(Run(steps).ledger, v.ledger, key);
        RunKeeps(steps + fewer);
        NextDoesNotReapply(v, s, key);
      }
    }
  }

  /**
    The other side: a key whose row says failed never gets a success row, so the look-up never skips
    that step, and every later handler that comes to it calls the runtime again.
  */
  lemma FailedRowStays(steps: seq<Step>, more: seq<Step>, key: Key)
    requires LedgerRow(key, false) in Run(steps).ledger
    ensures !HasSuccess(Run(steps + more).ledger, key)
  {
    hide Run;
    HistoryIsFinal(steps, more);
    LedgerIsFaithful(steps + more);
    var was, now := Run(steps).ledger, Run(steps + more).ledger;
    var i :| 0 <= i < |was| && was[i] == LedgerRow(key, false);
    assert now[i] == LedgerRow(key, false);
  }

  lemma SuccessStays(ledger: seq<LedgerRow>, longer: seq<LedgerRow>, key: Key)
    requires ledger <= longer && HasSuccess(ledger, key)
    ensures HasSuccess(longer, key)
  {
    var i :| 0 <= i < |ledger| && ledger[i] == LedgerRow(key, true);
    assert longer[i] == LedgerRow(key, true);
  }

  /**
    The ledger in every reachable state: keys are unique, every row has its audit record in the same
    order and there are no others, a success row stands for a successful call, and the rows of one
    plan under one token cover an initial segment of its steps.
  */
  lemma {:induction false} LedgerIsFaithful(steps: seq<Step>)
    ensures var w := Run(steps);
      && (forall i, j :: 0 <= i < j < |w.ledger| ==> w.ledger[i].key != w.ledger[j].key)
      && ActionRows(w.audit) == w.ledger
      && (forall r :: r in w.ledger && r.success ==> Done(w.log, r.key.plan, r.key.ordinal))
      && (forall r, o: nat :: r in w.ledger && o < r.key.ordinal ==> HasRow(w.ledger, r.key.(ordinal := o)))
  {
    RunKeeps(steps);
  }

  /**
    A plan marked executed has had every one of its steps applied with success, and has been approved
    if what is delivered with a valid signature matches its record.
  */
  lemma ExecutedMeansDone(steps: seq<Step>, p: PlanId)
    requires p in Run(steps).status && Run(steps).status[p] == Executed
    ensures var w := Run(steps);
      && p in w.plans
      && (forall o: nat :: o < |w.plans[p].steps| ==> Done(w.log, p, o))
      && (OnlyMatching(steps) ==> ApprovedPlan(w.log, p))
  {
    hide Run, OnlyMatching, MessagesGenuine, LedgerSound, DecisionsKnown, LogJustified;
    RunKeeps(steps);
    if OnlyMatching(steps) {
      ExecutingMeansApproved(steps, p);
    }
  }

  // ----- The plan rows -----

  /** No two plan rows are of one incident. */
  ghost predicate OneRowEach(w: World) {
    forall p, q :: p in w.status && q in w.status && p != q ==>
      p in w.plans && q in w.plans && w.plans[p].incident != w.plans[q].incident
  }

  lemma RowsOnlyProposed(w: World, s: Step)
    requires !s.Propose?
    ensures Next(w, s).plans == w.plans
    ensures forall p :: p in Next(w, s).status ==> p in w.status
  {
    hide TokenCurrent, Runnable, HasRow, HasSuccess, RollbackOf;
  }

  lemma ProposedReplaces(w: World, plan: PlanId, incident: IncidentId, steps: seq<PlanStep>)
    requires OneRowEach(w) && PlansKnown(w)
    ensures OneRowEach(Proposing(w, plan, incident, steps))
  {
  }

  /** In every reachable state an incident has at most one plan row: a new plan takes the place of the old one. */
  lemma {:induction false} OnePlanRow(steps: seq<Step>)
    ensures OneRowEach(Run(steps))
  {
    hide Next, OneRowEach, Proposing, Inv;
    if steps == [] {
      NoRows();
    } else {
      var earlier, s := steps[..|steps| - 1], steps[|steps| - 1];
      OnePlanRow(earlier);
      RunKeeps(earlier);
      OneRowNext(Run(earlier), s);
    }
  }

  lemma NoRows()
    ensures OneRowEach(INITIAL)
  {
  }

  lemma OneRowNext(w: World, s: Step)
    requires OneRowEach(w) && Inv(w)
    ensures OneRowEach(Next(w, s))
  {
    if s.Propose? {
      hide Inv;
      InvKnowsPlans(w);
      ProposedReplaces(w, s.plan, s.incident, s.steps);
    } else {
      hide Next;
      RowsOnlyProposed(w, s);
    }
  }

  lemma InvKnowsPlans(w: World)
    requires Inv(w)
    ensures PlansKnown(w)
  {
  }
}
