/**
  Plan persistence over any number of deliveries: what the plan tables hold after every history of
  stored runs, lost sessions and status changes by the other services.
*/
module PlanHistory {
  import opened Options
  import opened AgentGraph
  import opened PlanStore

  datatype Change =
    | Persist(delivery: Delivery)
    | SetStatus(plan: PlanId, status: string)     // the PDP and the executor assign plan.status

  function Changed(t: Tables, c: Change): Tables {
    match c
    case Persist(d) => Persisted(t, d)
    case SetStatus(p, status) => if p in t.plans then t.(plans := t.plans[p := t.plans[p].(status := status)]) else t
  }

  function Run(history: seq<Change>): Tables {
    if history == [] then EMPTY else Changed(Run(history[..|history| - 1]), history[|history| - 1])
  }

  /** At each delivery the ids it draws are unused. */
  ghost predicate Legal(history: seq<Change>) {
    history == [] ||
    (var earlier, c := history[..|history| - 1], history[|history| - 1];
     Legal(earlier) && (c.Persist? ==> UnusedIds(Run(earlier), c.delivery)))
  }

  /** The latest delivery for the incident that stored a plan. */
  function Latest(history: seq<Change>, incident: IncidentId): Option<Delivery> {
    if history == [] then None
    else
      var c := history[|history| - 1];
      if c.Persist? && c.delivery.incident == incident && Accepted(c.delivery) then Some(c.delivery)
      else Latest(history[..|history| - 1], incident)
  }

  /** The ids are those of the plan's steps, each once, in the order of the ordinals 0..n-1. */
  ghost predicate Lists(t: Tables, plan: PlanId, ids: seq<StepId>) {
    && (forall j, k :: 0 <= j < k < |ids| ==> ids[j] != ids[k])
    && (forall k :: 0 <= k < |ids| ==> ids[k] in t.steps && t.steps[ids[k]].plan == plan && t.steps[ids[k]].ordinal == k)
    && (forall s :: s in t.steps && t.steps[s].plan == plan ==> s in ids)
  }

  /** The tables hold the delivery's plan: its flags and its steps, with nothing added or missing. */
  ghost predicate Holds(t: Tables, d: Delivery) {
    && Storable(d.Proposals())
    && d.plan in t.plans
    && t.plans[d.plan] == PlanOf(d).(status := t.plans[d.plan].status)
    && Lists(t, d.plan, d.steps)
    && (forall k :: 0 <= k < |d.steps| ==> RowIs(t, d, k))
  }

  ghost predicate RowIs(t: Tables, d: Delivery, k: nat)
    requires k < |d.steps| && Storable(d.Proposals())
  {
    assert d.Proposals()[k] in d.Proposals();
    d.steps[k] in t.steps && t.steps[d.steps[k]] == StepRow(d.plan, k, d.Tiers(), d.Proposals()[k])
  }

  /** Every plan is the latest one of its incident, and no step is without its plan. */
  ghost predicate Inv(t: Tables, history: seq<Change>) {
    && (forall i :: Latest(history, i).Some? ==> Latest(history, i).value.incident == i && Holds(t, Latest(history, i).value))
    && (forall p :: p in t.plans ==> IsLatest(history, t.plans[p].incident, p))
    && (forall s :: s in t.steps ==> t.steps[s].plan in t.plans)
  }

  ghost predicate IsLatest(history: seq<Change>, incident: IncidentId, p: PlanId) {
    Latest(history, incident).Some? && Latest(history, incident).value.plan == p
  }

  // ----- One accepted delivery -----

  lemma {:induction false} InsertedRows(steps: map<StepId, PlanStepRow>, d: Delivery, n: nat)
    requires Storable(d.Proposals()) && n <= |d.steps|
    requires forall j, k :: 0 <= j < k < |d.steps| ==> d.steps[j] != d.steps[k]
    ensures forall s :: s in Inserted(steps, d, n) <==> s in steps || s in d.steps[..n]
    ensures forall s :: s in steps && s !in d.steps[..n] ==> Inserted(steps, d, n)[s] == steps[s]
    ensures forall k :: 0 <= k < n ==> InsertedAt(Inserted(steps, d, n), d, k)
  {
    hide StepRow;
    if n == 0 {
    } else {
      InsertedRows(steps, d, n - 1);
      var before := Inserted(steps, d, n - 1);
      assert d.steps[..n] == d.steps[..n - 1] + [d.steps[n - 1]];
      assert d.Proposals()[n - 1] in d.Proposals();
      forall k | 0 <= k < n
        ensures InsertedAt(Inserted(steps, d, n), d, k)
      {
        assert k < n - 1 ==> InsertedAt(before, d, k);
      }
    }
  }

  ghost predicate InsertedAt(steps: map<StepId, PlanStepRow>, d: Delivery, k: nat)
    requires k < |d.steps| && Storable(d.Proposals())
  {
    assert d.Proposals()[k] in d.Proposals();
    d.steps[k] in steps && steps[d.steps[k]] == StepRow(d.plan, k, d.Tiers(), d.Proposals()[k])
  }

  lemma AcceptedIsHeld(t: Tables, d: Delivery)
    requires Accepted(d) && UnusedIds(t, d)
    requires forall s :: s in t.steps ==> t.steps[s].plan in t.plans
    ensures Holds(Persisted(t, d), d)
  {
    hide Inserted, StepRow;
    var kept := StepsWithout(t, d.incident);
    InsertedRows(kept, d, |d.steps|);
    var t' := Persisted(t, d);
    assert d.steps[..|d.steps|] == d.steps;
    forall k | 0 <= k < |d.steps|
      ensures RowIs(t', d, k) && t'.steps[d.steps[k]].plan == d.plan && t'.steps[d.steps[k]].ordinal == k
    {
      assert InsertedAt(t'.steps, d, k);
      RowFields(d, k);
    }
  }

  lemma RowFields(d: Delivery, k: nat)
    requires k < |d.steps| && Storable(d.Proposals())
    ensures d.Proposals()[k] in d.Proposals()
    ensures var row := StepRow(d.plan, k, d.Tiers(), d.Proposals()[k]); row.plan == d.plan && row.ordinal == k
  {
    assert d.Proposals()[k] in d.Proposals();
  }

  /** A plan of another incident is not touched. */
  lemma OthersAreKept(t: Tables, d: Delivery, e: Delivery)
    requires Accepted(d) && UnusedIds(t, d)
    requires Holds(t, e) && e.incident != d.incident
    ensures Holds(Persisted(t, d), e)
  {
    hide Inserted, StepRow;
    var t' := Persisted(t, d);
    InsertedRows(StepsWithout(t, d.incident), d, |d.steps|);
    assert e.plan !in OldPlans(t, d.incident);
    forall k | 0 <= k < |e.steps|
      ensures RowIs(t', e, k) && t'.steps[e.steps[k]].plan == e.plan && t'.steps[e.steps[k]].ordinal == k
    {
      assert RowIs(t, e, k);
      assert e.steps[k] in t.steps && e.steps[k] !in d.steps;
      RowFields(e, k);
    }
    NewStepsAreOfThePlan(t, d);
  }

  /** What is in the step table afterwards was there before, of a plan that was kept, or belongs to the new plan. */
  lemma NewStepsAreOfThePlan(t: Tables, d: Delivery)
    requires Accepted(d) && UnusedIds(t, d)
    ensures var t' := Persisted(t, d);
      forall s :: s in t'.steps ==>
        || (s in t.steps && t'.steps[s] == t.steps[s] && t.steps[s].plan !in OldPlans(t, d.incident))
        || t'.steps[s].plan == d.plan
  {
    hide Inserted, StepRow;
    var t' := Persisted(t, d);
    InsertedRows(StepsWithout(t, d.incident), d, |d.steps|);
    assert d.steps[..|d.steps|] == d.steps;
    forall s | s in t'.steps && s in d.steps
      ensures t'.steps[s].plan == d.plan
    {
      var k :| 0 <= k < |d.steps| && d.steps[k] == s;
      assert InsertedAt(t'.steps, d, k);
      RowFields(d, k);
    }
  }

  // ----- All histories -----

  lemma AcceptedKeeps(t: Tables, history: seq<Change>, d: Delivery)
    requires Inv(t, history) && Accepted(d) && UnusedIds(t, d)
    ensures Inv(Persisted(t, d), history + [Persist(d)])
  {
    hide Holds, Inserted;
    var after := history + [Persist(d)];
    var t' := Persisted(t, d);
    assert after[..|after| - 1] == history;
    AcceptedIsHeld(t, d);
    forall i | Latest(after, i).Some?
      ensures Latest(after, i).value.incident == i && Holds(t', Latest(after, i).value)
    {
      if i != d.incident {
        assert Latest(after, i) == Latest(history, i);
        OthersAreKept(t, d, Latest(history, i).value);
      }
    }
    forall p | p in t'.plans
      ensures IsLatest(after, t'.plans[p].incident, p)
    {
      if p != d.plan {
        assert IsLatest(history, t.plans[p].incident, p);
      }
    }
    NewStepsAreOfThePlan(t, d);
  }

  /** A change that stores no plan leaves the plans, apart from their status, and the steps alone. */
  lemma OtherKeeps(t: Tables, history: seq<Change>, c: Change)
    requires Inv(t, history) && (c.Persist? ==> !Accepted(c.delivery))
    ensures Inv(Changed(t, c), history + [c])
  {
    hide Holds, Changed;
    SamePlansAndSteps(t, c);
    var after := history + [c];
    var t' := Changed(t, c);
    assert after[..|after| - 1] == history;
    forall i | Latest(after, i).Some?
      ensures Latest(after, i).value.incident == i && Holds(t', Latest(after, i).value)
    {
      assert Latest(after, i) == Latest(history, i);
      StatusAside(t, t', Latest(history, i).value);
    }
    forall p | p in t'.plans
      ensures IsLatest(after, t'.plans[p].incident, p)
    {
      assert IsLatest(history, t.plans[p].incident, p);
    }
  }

  ghost predicate SameUpToStatus(t: Tables, t': Tables) {
    && t'.steps == t.steps && t'.plans.Keys == t.plans.Keys
    && forall p :: p in t.plans ==> t'.plans[p] == t.plans[p].(status := t'.plans[p].status)
  }

  lemma SamePlansAndSteps(t: Tables, c: Change)
    requires c.Persist? ==> !Accepted(c.delivery)
    ensures SameUpToStatus(t, Changed(t, c))
  {
  }

  lemma StatusAside(t: Tables, t': Tables, d: Delivery)
    requires Holds(t, d)
    requires SameUpToStatus(t, t')
    ensures Holds(t', d)
  {
    forall k | 0 <= k < |d.steps|
      ensures RowIs(t', d, k)
    {
      assert RowIs(t, d, k);
    }
  }

  lemma {:induction false} RunKeeps(history: seq<Change>)
    requires Legal(history)
    ensures Inv(Run(history), history)
  {
    hide Inv;
    if history == [] {
      EmptyInv();
    } else {
      var earlier, c := history[..|history| - 1], history[|history| - 1];
      RunKeeps(earlier);
      assert history == earlier + [c];
      if c.Persist? && Accepted(c.delivery) {
        AcceptedKeeps(Run(earlier), earlier, c.delivery);
      } else {
        OtherKeeps(Run(earlier), earlier, c);
      }
    }
  }

  lemma EmptyInv()
    ensures Inv(EMPTY, [])
  {
  }

  // ----- What the other services read -----

  /** A result of the executor's query: the plan's steps, each once, ordered by ordinal. */
  ghost predicate OrderedRead(t: Tables, plan: PlanId, ids: seq<StepId>) {
    && (forall j, k :: 0 <= j < k < |ids| ==> ids[j] != ids[k])
    && (forall s :: s in ids <==> s in t.steps && t.steps[s].plan == plan)
    && (forall j, k :: 0 <= j < k < |ids| ==> OrdinalOf(t, ids[j]) <= OrdinalOf(t, ids[k]))
  }

  function OrdinalOf(t: Tables, s: StepId): nat {
    if s in t.steps then t.steps[s].ordinal else 0
  }

  /** Whatever order the table keeps its rows in, the ordered read can only be the list itself. */
  lemma {:induction false} OrderedReadAt(t: Tables, plan: PlanId, listed: seq<StepId>, ids: seq<StepId>, k: nat)
    requires Lists(t, plan, listed) && OrderedRead(t, plan, ids)
    requires k < |listed| || k < |ids|
    ensures k < |listed| && k < |ids| && ids[k] == listed[k]
    decreases k
  {
    if k == 0 {
    } else {
      OrderedReadAt(t, plan, listed, ids, k - 1);
    }
    forall i | 0 <= i < k
      ensures i < |ids| && i < |listed| && ids[i] == listed[i]
    {
      OrderedReadAt(t, plan, listed, ids, i);
    }
    if k < |listed| {
      ListedIsRead(t, plan, listed, ids, k);
    } else {
      ReadIsListed(t, plan, listed, ids, k);
      assert false;
    }
  }

  lemma ReadIsListed(t: Tables, plan: PlanId, listed: seq<StepId>, ids: seq<StepId>, k: nat)
    requires Lists(t, plan, listed) && OrderedRead(t, plan, ids) && k < |ids|
    ensures exists j :: 0 <= j < |listed| && listed[j] == ids[k]
  {
    assert ids[k] in ids;
  }

  lemma ListedIsRead(t: Tables, plan: PlanId, listed: seq<StepId>, ids: seq<StepId>, k: nat)
    requires Lists(t, plan, listed) && OrderedRead(t, plan, ids) && k < |listed|
    requires forall i :: 0 <= i < k ==> i < |ids| && ids[i] == listed[i]
    ensures k < |ids| && ids[k] == listed[k]
  {
    assert listed[k] in ids;
    var j :| 0 <= j < |ids| && ids[j] == listed[k];
    assert j >= k;
    assert ids[k] in ids && forall i :: 0 <= i < k ==> listed[i] != ids[k];
    var m :| 0 <= m < |listed| && listed[m] == ids[k];
    assert OrdinalOf(t, ids[k]) == m && OrdinalOf(t, ids[j]) == k;
  }

  lemma OrderedReadIsTheList(t: Tables, plan: PlanId, listed: seq<StepId>, ids: seq<StepId>)
    requires Lists(t, plan, listed) && OrderedRead(t, plan, ids)
    ensures ids == listed
  {
    if |ids| > |listed| {
      OrderedReadAt(t, plan, listed, ids, |listed|);
    }
    if |listed| > |ids| {
      OrderedReadAt(t, plan, listed, ids, |ids|);
    }
    forall k | 0 <= k < |ids| && k < |listed|
      ensures ids[k] == listed[k]
    {
      OrderedReadAt(t, plan, listed, ids, k);
    }
  }

  /** What a reader sees of a step, apart from the ids. */
  datatype Seen = Seen(ordinal: nat, action: string, params: map<string, string>, riskTier: string)

  function SeenSteps(t: Tables, ids: seq<StepId>): seq<Seen>
    requires forall s :: s in ids ==> s in t.steps
  {
    seq(|ids|, k requires 0 <= k < |ids| => assert ids[k] in ids;
      var row := t.steps[ids[k]];
      Seen(row.ordinal, row.action, row.params, row.riskTier))
  }

  /** The steps as the agents proposed them, in that order, with the catalog's tiers. */
  function ProposedSteps(proposals: seq<Proposal>, tiers: map<string, string>): seq<Seen>
    requires Storable(proposals)
  {
    seq(|proposals|, k requires 0 <= k < |proposals| => assert proposals[k] in proposals;
      var action := proposals[k].action.GetOr("");
      Seen(k, action, proposals[k].params.GetOr(map[]), if action in tiers then tiers[action] else "medium"))
  }

  /** The status given to the incident's plan since it was stored, or the one it was stored with. */
  function StatusGiven(history: seq<Change>, incident: IncidentId): string
    requires Latest(history, incident).Some?
  {
    var earlier, c := history[..|history| - 1], history[|history| - 1];
    if c.Persist? && c.delivery.incident == incident && Accepted(c.delivery) then "proposed"
    else if c.SetStatus? && c.plan == Latest(earlier, incident).value.plan then c.status
    else StatusGiven(earlier, incident)
  }

  lemma {:induction false} StatusIsGiven(history: seq<Change>, incident: IncidentId)
    requires Legal(history) && Latest(history, incident).Some?
    ensures var p := Latest(history, incident).value.plan;
      p in Run(history).plans && Run(history).plans[p].status == StatusGiven(history, incident)
  {
    hide Inv, Changed;
    var earlier, c := history[..|history| - 1], history[|history| - 1];
    RunKeeps(history);
    RunKeeps(earlier);
    LatestIsHeld(Run(history), history, incident);
    if c.Persist? && c.delivery.incident == incident && Accepted(c.delivery) {
      StoredAsProposed(Run(earlier), c.delivery);
    } else {
      StatusIsGiven(earlier, incident);
      LatestIsHeld(Run(earlier), earlier, incident);
      StatusMoves(Run(earlier), c, incident, Latest(earlier, incident).value.plan);
    }
  }

  lemma LatestIsHeld(t: Tables, history: seq<Change>, incident: IncidentId)
    requires Inv(t, history) && Latest(history, incident).Some?
    ensures var d := Latest(history, incident).value;
      d.incident == incident && d.plan in t.plans && t.plans[d.plan].incident == incident
  {
    assert Holds(t, Latest(history, incident).value);
  }

  lemma StoredAsProposed(t: Tables, d: Delivery)
    requires Accepted(d)
    ensures d.plan in Changed(t, Persist(d)).plans && Changed(t, Persist(d)).plans[d.plan].status == "proposed"
  {
  }

  lemma StatusMoves(t: Tables, c: Change, incident: IncidentId, p: PlanId)
    requires p in t.plans && t.plans[p].incident == incident
    requires c.Persist? && Accepted(c.delivery) ==> c.delivery.incident != incident && c.delivery.plan != p
    ensures p in Changed(t, c).plans
    ensures Changed(t, c).plans[p].status == if c.SetStatus? && c.plan == p then c.status else t.plans[p].status
  {
  }

  /** The final state of the latest delivery for the incident whose session was committed. */
  function LatestFinal(history: seq<Change>, incident: IncidentId): Option<IncidentState> {
    if history == [] then None
    else
      var c := history[|history| - 1];
      if c.Persist? && c.delivery.incident == incident && c.delivery.commits
         && (c.delivery.final.escalated == Some(true) || NotAnObject !in c.delivery.final.plan.GetOr([]))
      then Some(c.delivery.final)
      else LatestFinal(history[..|history| - 1], incident)
  }

  /** After any history an incident's snapshot is the final state of its latest delivery that did not fail. */
  lemma {:induction false} SnapshotIsLatest(history: seq<Change>, incident: IncidentId)
    ensures var t := Run(history);
      match LatestFinal(history, incident)
      case None => incident !in t.snapshots
      case Some(final) => incident in t.snapshots && t.snapshots[incident] == final
  {
    hide Inserted;
    if history == [] {
    } else {
      SnapshotIsLatest(history[..|history| - 1], incident);
    }
  }

  /**
    After any history an incident has no plan if none was ever stored for it, and otherwise exactly
    one: the latest, with the run's flags, proposed or in the status that was last given to it, and
    any ordered read of its steps returns what was proposed.
  */
  lemma StoredPlan(history: seq<Change>, incident: IncidentId)
    requires Legal(history)
    ensures var t := Run(history);
      match Latest(history, incident)
      case None => OldPlans(t, incident) == {}
      case Some(d) =>
        && OldPlans(t, incident) == {d.plan}
        && t.plans[d.plan] == PlanRow(incident, StatusGiven(history, incident), d.final.requiresApproval.GetOr(true),
                                      d.final.autonomyAllowed.GetOr(false))
    ensures Latest(history, incident).Some? ==> ReadsBack(Run(history), Latest(history, incident).value)
  {
    hide Legal, Run, Latest, StatusGiven;
    RunKeeps(history);
    var t := Run(history);
    forall p | p in t.plans
      ensures IsLatest(history, t.plans[p].incident, p)
    {
    }
    if Latest(history, incident).Some? {
      assert Holds(t, Latest(history, incident).value);
      HeldReadsBack(t, Latest(history, incident).value);
      StatusIsGiven(history, incident);
      assert OldPlans(t, incident) == {Latest(history, incident).value.plan};
    } else {
      assert OldPlans(t, incident) == {};
    }
  }

  ghost predicate ReadsBack(t: Tables, d: Delivery) {
    && Storable(d.Proposals())
    && (exists ids :: OrderedRead(t, d.plan, ids))
    && forall ids :: OrderedRead(t, d.plan, ids) ==> SeenSteps(t, ids) == ProposedSteps(d.Proposals(), d.Tiers())
  }

  lemma HeldReadsBack(t: Tables, d: Delivery)
    requires Holds(t, d)
    ensures ReadsBack(t, d)
  {
    ListIsOrderedRead(t, d.plan, d.steps);
    forall ids | OrderedRead(t, d.plan, ids)
      ensures SeenSteps(t, ids) == ProposedSteps(d.Proposals(), d.Tiers())
    {
      OrderedReadIsTheList(t, d.plan, d.steps, ids);
      forall k | 0 <= k < |ids|
        ensures SeenSteps(t, ids)[k] == ProposedSteps(d.Proposals(), d.Tiers())[k]
      {
        assert ids[k] in ids;
        assert RowIs(t, d, k);
        assert d.Proposals()[k] in d.Proposals();
      }
    }
  }

  lemma ListIsOrderedRead(t: Tables, plan: PlanId, ids: seq<StepId>)
    requires Lists(t, plan, ids)
    ensures OrderedRead(t, plan, ids)
  {
    forall s | s in ids
      ensures s in t.steps && t.steps[s].plan == plan
    {
      var k :| 0 <= k < |ids| && ids[k] == s;
    }
  }

  /** No step row is ever left without its plan, and a plan's ordinals are 0..n-1. */
  lemma NoOrphans(history: seq<Change>, s: StepId)
    requires Legal(history) && s in Run(history).steps
    ensures var t := Run(history);
      && t.steps[s].plan in t.plans
      && exists ids :: Lists(t, t.steps[s].plan, ids) && s in ids
  {
    hide Legal, Run, Latest;
    RunKeeps(history);
    var t := Run(history);
    var p := t.steps[s].plan;
    assert IsLatest(history, t.plans[p].incident, p);
    var d := Latest(history, t.plans[p].incident).value;
    assert Holds(t, d);
    assert Lists(t, p, d.steps);
  }

  /** Storing the same final state again gives the same plan, up to the new ids, in status proposed. */
  lemma PersistTwice(history: seq<Change>, d: Delivery, e: Delivery, ids: seq<StepId>, ids': seq<StepId>)
    requires Legal(history + [Persist(d)] + [Persist(e)])
    requires Accepted(d) && e.commits && e.final == d.final && e.incident == d.incident && e.Tiers() == d.Tiers()
    requires OrderedRead(Run(history + [Persist(d)]), d.plan, ids)
    requires OrderedRead(Run(history + [Persist(d)] + [Persist(e)]), e.plan, ids')
    ensures var t, t' := Run(history + [Persist(d)]), Run(history + [Persist(d)] + [Persist(e)]);
      && OldPlans(t, d.incident) == {d.plan} && OldPlans(t', d.incident) == {e.plan} && e.plan != d.plan
      && t'.plans[e.plan] == t.plans[d.plan] && t.plans[d.plan].status == "proposed"
      && t'.snapshots == t.snapshots
      && SeenSteps(t, ids) == SeenSteps(t', ids')
  {
    hide ProposedSteps, SeenSteps;
    var once := history + [Persist(d)];
    var twice := once + [Persist(e)];
    assert once[..|once| - 1] == history && twice[..|twice| - 1] == once;
    StoredPlan(once, d.incident);
    StoredPlan(twice, d.incident);
    assert Latest(once, d.incident) == Some(d) && Latest(twice, d.incident) == Some(e);
    assert Run(once) == Persisted(Run(history), d) && Run(twice) == Persisted(Run(once), e);
  }

  /**
    The replacement does not look at the status: a redelivered event drops a plan that was already
    decided on, and one whose run escalates leaves the old plan in place.
  */
  lemma {:induction false} ReplacedWhateverItsStatus(history: seq<Change>, d: Delivery, p: PlanId)
    requires Legal(history + [Persist(d)])
    requires p in Run(history).plans && Run(history).plans[p].incident == d.incident
    ensures p in Run(history + [Persist(d)]).plans <==> !Accepted(d)
    ensures !Accepted(d) ==> Run(history + [Persist(d)]).plans == Run(history).plans
  {
    var after := history + [Persist(d)];
    assert after[..|after| - 1] == history;
  }
}
