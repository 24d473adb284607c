/**
  Runs of the action path: what a single step adds, and runs put together from parts.
*/
module RemediationRuns {
  import opened Options
  import opened Remediation

  // ----- What one step adds -----

  /** Ledger, log and audit table grow at the end, the log by at most one event. */
  predicate Appends(w: World, w': World) {
    w.ledger <= w'.ledger && w.log <= w'.log && w.audit <= w'.audit && |w'.log| <= |w.log| + 1
  }

  /** No new forward call. */
  predicate Quiet(w: World, w': World) {
    Appends(w, w') && (|w'.log| > |w.log| ==> !w'.log[|w.log|].Forward?)
  }

  lemma ProposalIsQuiet(w: World, plan: PlanId, incident: IncidentId, steps: seq<PlanStep>)
    ensures Quiet(w, Proposing(w, plan, incident, steps))
  {
  }

  lemma DecisionIsQuiet(w: World, plan: PlanId, verdict: Verdict, approver: string, late: bool)
    ensures Quiet(w, Deciding(w, plan, verdict, approver, late))
  {
  }

  lemma DeliveryIsQuiet(w: World, m: Message, catalog: Catalog)
    ensures Quiet(w, Delivering(w, m, catalog))
  {
    hide Accepts;
  }

  lemma ChecksAreQuiet(w: World, incident: IncidentId)
    ensures Quiet(w, Checking(w, incident)) && Quiet(w, Tripping(w, incident))
  {
  }

  lemma RowsAreQuiet(w: World, incident: IncidentId, flag: bool)
    ensures Quiet(w, Writing(w, incident, flag)) && Quiet(w, AuditingUndo(w, incident))
  {
    hide HasRow;
  }

  lemma CallsAppend(w: World, incident: IncidentId, ok: bool)
    ensures Appends(w, Applying(w, incident, ok)) && Quiet(w, UndoOne(w, incident, ok))
  {
  }

  lemma NextIsQuiet(w: World, s: Step)
    ensures if s.Apply? then Appends(w, Next(w, s)) else Quiet(w, Next(w, s))
  {
    hide Proposing, Deciding, Delivering, Checking, Tripping, Applying, Writing, UndoOne, AuditingUndo;
    match s
    case OpenIncident(_, _) =>
    case Propose(plan, incident, steps) => ProposalIsQuiet(w, plan, incident, steps);
    case Decide(plan, verdict, approver, late) => DecisionIsQuiet(w, plan, verdict, approver, late);
    case Publish(_) =>
    case Inject(_) =>
    case Mint(_, _) =>
    case Deliver(m, catalog) => DeliveryIsQuiet(w, m, catalog);
    case Check(incident) => ChecksAreQuiet(w, incident);
    case Trip(incident) => ChecksAreQuiet(w, incident);
    case Apply(incident, ok) => CallsAppend(w, incident, ok);
    case Write(incident, raises) => RowsAreQuiet(w, incident, raises);
    case Undo(incident, ok) => CallsAppend(w, incident, ok);
    case AuditUndo(incident) => RowsAreQuiet(w, incident, false);
    case Crash(_) =>
  }

  // ----- Runs, one step more -----

  lemma RunSnoc(steps: seq<Step>, more: seq<Step>)
    requires more != []
    ensures Run(steps + more) == Next(Run(steps + more[..|more| - 1]), more[|more| - 1])
  {
    hide Next, Run;
    assert steps + more == steps + more[..|more| - 1] + [more[|more| - 1]];
    RunSnocOne(steps + more[..|more| - 1], more[|more| - 1]);
  }

  lemma RunSnocOne(steps: seq<Step>, s: Step)
    ensures Run(steps + [s]) == Next(Run(steps), s)
  {
    hide Next;
    assert (steps + [s])[..|steps|] == steps;
  }

  lemma RunContinues(steps: seq<Step>, more: seq<Step>)
    ensures Run(steps + more) == RunOf(more, Run(steps))
  {
    hide Next, Run, RunOf;
    RunIsRunOf(steps);
    RunIsRunOf(steps + more);
    RunOfAppends(steps, more, INITIAL);
  }

  // ----- Losing a success -----

  /** The runtime has answered the incident's handler with success, and no row says so yet. */
  predicate AtStake(w: World, inc: IncidentId) {
    inc in w.handlers && w.handlers[inc].Returned? && w.handlers[inc].ok
  }

  function KeyAtStake(w: World, inc: IncidentId): Key
    requires AtStake(w, inc)
  {
    w.handlers[inc].job.KeyOf(w.handlers[inc].i)
  }

  /**
    The step loses a success: the handler dies with it, its unit of work fails, or the key is taken,
    so that the row is not written although the unit of work goes through.
  */
  predicate Loses(w: World, s: Step) {
    match s
    case Crash(inc) => AtStake(w, inc)
    case Write(inc, raises) => AtStake(w, inc) && (raises || HasRow(w.ledger, KeyAtStake(w, inc)))
    case _ => false
  }

  /** The step loses nothing, or the success of a step of the plan that comes before the n-th. */
  predicate LosesBefore(w: World, s: Step, n: nat) {
    Loses(w, s) ==> KeyAtStake(w, s.incident).ordinal < n
  }

  /** None of the steps, taken from the given state, loses a success of the n-th step of a plan or a later one. */
  ghost predicate LosesOnlyBefore(w: World, more: seq<Step>, n: nat) {
    forall i :: 0 <= i < |more| ==> LosesBefore(RunOf(more[..i], w), more[i], n)
  }

  lemma LossesAppend(w: World, a: seq<Step>, b: seq<Step>, n: nat)
    requires LosesOnlyBefore(w, a, n) && LosesOnlyBefore(RunOf(a, w), b, n)
    ensures LosesOnlyBefore(w, a + b, n)
  {
    hide RunOf, LosesBefore;
    forall i | 0 <= i < |a + b|
      ensures LosesBefore(RunOf((a + b)[..i], w), (a + b)[i], n)
    {
      if i < |a| {
        assert (a + b)[..i] == a[..i];
      } else {
        assert (a + b)[..i] == a + b[..i - |a|];
        RunOfAppends(a, b[..i - |a|], w);
        assert LosesBefore(RunOf(b[..i - |a|], RunOf(a, w)), b[i - |a|], n);
      }
    }
  }

  lemma OneLoss(w: World, s: Step, n: nat)
    requires LosesBefore(w, s, n)
    ensures LosesOnlyBefore(w, [s], n)
  {
    assert [s][..0] == [];
    assert RunOf([], w) == w;
  }

  lemma LossesGrow(w: World, more: seq<Step>, m: nat, n: nat)
    requires LosesOnlyBefore(w, more, m) && m <= n
    ensures LosesOnlyBefore(w, more, n)
  {
    hide RunOf, Loses;
    forall i | 0 <= i < |more|
      ensures LosesBefore(RunOf(more[..i], w), more[i], n)
    {
      assert LosesBefore(RunOf(more[..i], w), more[i], m);
    }
  }

  // ----- Runs in parts -----

  /** Steps taken from a given state. */
  function RunOf(steps: seq<Step>, w: World): World {
    if steps == [] then w else Next(RunOf(steps[..|steps| - 1], w), steps[|steps| - 1])
  }

  lemma {:induction false} RunIsRunOf(steps: seq<Step>)
    ensures Run(steps) == RunOf(steps, INITIAL)
  {
    if steps == [] {
    } else {
      RunIsRunOf(steps[..|steps| - 1]);
    }
  }

  lemma {:induction false} RunOfAppends(steps: seq<Step>, more: seq<Step>, w: World)
    ensures RunOf(steps + more, w) == RunOf(more, RunOf(steps, w))
  {
    if more == [] {
      assert steps + more == steps;
    } else {
      RunOfAppends(steps, more[..|more| - 1], w);
      assert (steps + more)[..|steps + more| - 1] == steps + more[..|more| - 1];
    }
  }

  lemma RunOfFour(a: Step, b: Step, c: Step, d: Step, w: World)
    ensures RunOf([a, b, c, d], w) == Next(Next(Next(Next(w, a), b), c), d)
  {
    assert [a, b, c, d][..3] == [a, b, c] && [a, b, c][..2] == [a, b] && [a, b][..1] == [a] && [a][..0] == [];
    assert RunOf([a], w) == Next(w, a);
    assert RunOf([a, b], w) == Next(RunOf([a], w), b);
    assert RunOf([a, b, c], w) == Next(RunOf([a, b], w), c);
  }

  // ----- Single steps where nothing else is going on -----

  /** An incident, a plan for it, its approval, published. */
  lemma ApprovedWorld(planSteps: seq<PlanStep>)
    requires planSteps != []
    ensures var record := Record(7, 1, Approve, "ops", Some(5));
      var m := MessageOf(record);
      RunOf([OpenIncident(1, Some(5)), Propose(7, 1, planSteps), Decide(7, Approve, "ops", false), Publish(m)], INITIAL)
        == World(map[1 := Some(5)], map[7 := Plan(1, planSteps)], map[7 := Approved], {}, {m}, {}, [],
                 [PlanDecided(7, Approve)], map[], [Decided(record)])
  {
    var record := Record(7, 1, Approve, "ops", Some(5));
    var m := MessageOf(record);
    RunOfFour(OpenIncident(1, Some(5)), Propose(7, 1, planSteps), Decide(7, Approve, "ops", false), Publish(m), INITIAL);
    var w1 := Next(INITIAL, OpenIncident(1, Some(5)));
    assert w1.incidents == map[1 := Some(5)];
    var w2 := Next(w1, Propose(7, 1, planSteps));
    assert w2.plans == map[7 := Plan(1, planSteps)] && w2.status == map[7 := Proposed];
    var w3 := Next(w2, Decide(7, Approve, "ops", false));
    assert w3.status == map[7 := Approved] && w3.unsent == {m} && w3.log == [Decided(record)];
    var w4 := Next(w3, Publish(m));
    assert w4.unsent == {} && w4.topic == {m};
  }

  lemma DeliverAlone(w: World, m: Message, job: Job, catalog: Catalog)
    requires m in w.topic && w.handlers == map[] && Accepts(w, m) && job == JobOf(w, m, catalog)
    ensures Next(w, Deliver(m, catalog))
         == w.(status := w.status[m.plan := Executing], handlers := map[m.incident := Walking(job, 0)])
  {
  }

  lemma CheckAlone(w: World, inc: IncidentId, job: Job)
    requires w.handlers == map[inc := Walking(job, 0)] && w.ledger == []
    requires |job.steps| == 1 && Runnable(job.catalog, job.steps[0])
    ensures Next(w, Check(inc)) == w.(handlers := map[inc := Cleared(job, 0)])
  {
  }

  lemma ApplyAlone(w: World, inc: IncidentId, job: Job)
    requires w.handlers == map[inc := Cleared(job, 0)] && |job.steps| == 1
    ensures Next(w, Apply(inc, true))
         == w.(handlers := map[inc := Returned(job, 0, true)],
               log := w.log + [Forward(job.KeyOf(0), job.steps[0].action, job.steps[0].params, true)])
  {
  }

  lemma CrashAlone(w: World, inc: IncidentId, job: Job)
    requires w.handlers == map[inc := Returned(job, 0, true)]
    ensures Next(w, Crash(inc)) == w.(handlers := map[])
  {
  }
}
