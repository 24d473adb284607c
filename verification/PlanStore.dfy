/**
  Storing the outcome of an agent run: the workflow snapshot and the replaced plan
  (`_persist_and_emit`, src/aegis_services/orchestrator/worker.py:127-177), and reading a plan back in
  order (src/aegis_services/action_executor/worker.py:71-73).
*/
module PlanStore {
  import opened Options
  import opened AgentGraph

  type IncidentId = nat
  type PlanId = nat
  type StepId = nat

  datatype PlanRow = PlanRow(incident: IncidentId, status: string, requiresApproval: bool, autonomyAllowed: bool)

  datatype PlanStepRow = PlanStepRow(
    plan: PlanId, ordinal: nat, action: string, params: map<string, string>, riskTier: string)

  datatype Tables = Tables(
    snapshots: map<IncidentId, IncidentState>,
    plans: map<PlanId, PlanRow>,
    steps: map<StepId, PlanStepRow>)

  const EMPTY := Tables(map[], map[], map[])

  /** What the action catalog says about an action besides how to run it. */
  datatype CatalogRow = CatalogRow(riskTier: string, requiresApproval: bool)

  /**
    One delivery of an OPENED event, with the final state its run came to, the action catalog, the
    ids that uuid4 will hand out, and whether the session's commit goes through.
  */
  datatype Attempt = Attempt(
    incident: IncidentId, final: IncidentState, catalog: map<string, CatalogRow>,
    plan: PlanId, steps: seq<StepId>, commits: bool)
  {
    function Proposals(): seq<Proposal> {
      final.plan.GetOr([])
    }

    /** _risk_tier_map: of the catalog, only the tiers are looked at. */
    function Tiers(): map<string, string> {
      map action | action in catalog :: catalog[action].riskTier
    }
  }

  /** As many step ids as there are steps. */
  type Delivery = a: Attempt | |a.steps| == |a.Proposals()| witness Attempt(0, BLANK, map[], 0, [], true)

  datatype Event = Escalated(reason: Option<EscalationReason>) | PlanProposed(plan: PlanId, requiresApproval: bool)

  /** Not escalated, and a plan that is not empty. */
  predicate Proposes(final: IncidentState) {
    final.escalated != Some(true) && final.plan.GetOr([]) != []
  }

  predicate Storable(proposals: seq<Proposal>) {
    NotAnObject !in proposals
  }

  /** The delivery stores a plan. */
  predicate Accepted(d: Delivery) {
    d.commits && Proposes(d.final) && Storable(d.Proposals())
  }

  function Tier(tiers: map<string, string>, action: string): string {
    if action in tiers then tiers[action] else "medium"
  }

  function StepRow(plan: PlanId, ordinal: nat, tiers: map<string, string>, p: Proposal): PlanStepRow
    requires p.Proposal?
  {
    var action := p.action.GetOr("");
    PlanStepRow(plan, ordinal, action, p.params.GetOr(map[]), Tier(tiers, action))
  }

  function PlanOf(d: Delivery): PlanRow {
    PlanRow(d.incident, "proposed", d.final.requiresApproval.GetOr(true), d.final.autonomyAllowed.GetOr(false))
  }

  function Inserted(steps: map<StepId, PlanStepRow>, d: Delivery, n: nat): map<StepId, PlanStepRow>
    requires Storable(d.Proposals()) && n <= |d.steps|
  {
    if n == 0 then steps
    else
      assert d.Proposals()[n - 1] in d.Proposals();
      Inserted(steps, d, n - 1)[d.steps[n - 1] := StepRow(d.plan, n - 1, d.Tiers(), d.Proposals()[n - 1])]
  }

  function OldPlans(t: Tables, incident: IncidentId): set<PlanId> {
    set p | p in t.plans && t.plans[p].incident == incident
  }

  function PlansWithout(t: Tables, incident: IncidentId): map<PlanId, PlanRow> {
    map p | p in t.plans && t.plans[p].incident != incident :: t.plans[p]
  }

  function StepsWithout(t: Tables, incident: IncidentId): map<StepId, PlanStepRow> {
    map s | s in t.steps && t.steps[s].plan !in OldPlans(t, incident) :: t.steps[s]
  }

  /** The tables after one delivery: all of the session, or nothing. */
  function Persisted(t: Tables, d: Delivery): Tables {
    if !d.commits then t
    else if !Proposes(d.final) then t.(snapshots := t.snapshots[d.incident := d.final])
    else if !Storable(d.Proposals()) then t
    else Tables(t.snapshots[d.incident := d.final],
                PlansWithout(t, d.incident)[d.plan := PlanOf(d)],
                Inserted(StepsWithout(t, d.incident), d, |d.steps|))
  }

  function Emitted(d: Delivery): Option<Event> {
    if !d.commits then None
    else if !Proposes(d.final) then Some(Escalated(d.final.reason))
    else if !Storable(d.Proposals()) then None
    else Some(PlanProposed(d.plan, d.final.requiresApproval.GetOr(true)))
  }

  /** uuid4 does not repeat itself. */
  ghost predicate UnusedIds(t: Tables, d: Delivery) {
    && d.plan !in t.plans
    && (forall k :: 0 <= k < |d.steps| ==> d.steps[k] !in t.steps)
    && (forall j, k :: 0 <= j < k < |d.steps| ==> d.steps[j] != d.steps[k])
  }

  class Orchestrator {
    var snapshots: map<IncidentId, IncidentState>
    var plans: map<PlanId, PlanRow>
    var steps: map<StepId, PlanStepRow>

    ghost function Now(): Tables
      reads this
    {
      Tables(snapshots, plans, steps)
    }

    constructor ()
      ensures Now() == EMPTY
    {
      snapshots, plans, steps := map[], map[], map[];
    }

    /** The session works on its own view and commits it at the end; an exception rolls it back. */
    method PersistAndEmit(d: Delivery) returns (event: Option<Event>)
      modifies this
      ensures Now() == Persisted(old(Now()), d)
      ensures event == Emitted(d)
      ensures event.None? <==> !d.commits || (d.final.escalated != Some(true) && NotAnObject in d.Proposals())
      ensures event.Some? ==> d.incident in snapshots && snapshots[d.incident] == d.final
      ensures event.Some? && (d.final.escalated == Some(true) || d.final.plan.GetOr([]) == []) ==>
        event.value == Escalated(d.final.reason) && plans == old(plans) && steps == old(steps)
      ensures event.Some? && d.final.escalated != Some(true) && d.final.plan.GetOr([]) != [] ==>
        && d.plan in plans
        && plans[d.plan] == PlanRow(d.incident, "proposed", d.final.requiresApproval.GetOr(true),
                                    d.final.autonomyAllowed.GetOr(false))
        && event.value == PlanProposed(d.plan, plans[d.plan].requiresApproval)
    {
      var snapshotsView, plansView, stepsView := snapshots[d.incident := d.final], plans, steps;
      if d.final.escalated == Some(true) || d.Proposals() == [] {
        if !d.commits {
          return None;
        }
        snapshots := snapshotsView;
        return Some(Escalated(d.final.reason));
      }
      var replaced := set p | p in plans && plans[p].incident == d.incident;
      if replaced != {} {
        stepsView := map s | s in steps && steps[s].plan !in replaced :: steps[s];
        plansView := map p | p in plans && plans[p].incident != d.incident :: plans[p];
      }
      NothingToReplace(Now(), d.incident);
      assert plansView == PlansWithout(Now(), d.incident) && stepsView == StepsWithout(Now(), d.incident);
      plansView := plansView[d.plan := PlanOf(d)];
      stepsView, event := InsertSteps(stepsView, d);
      if event == None || !d.commits {
        return None;
      }
      snapshots, plans, steps := snapshotsView, plansView, stepsView;
    }

    /** The loop over the proposed steps; no event where `step.get` raises. */
    method InsertSteps(base: map<StepId, PlanStepRow>, d: Delivery)
        returns (view: map<StepId, PlanStepRow>, event: Option<Event>)
      ensures event == if Storable(d.Proposals()) then Some(PlanProposed(d.plan, PlanOf(d).requiresApproval)) else None
      ensures Storable(d.Proposals()) ==> view == Inserted(base, d, |d.steps|)
    {
      view := base;
      var i := 0;
      while i < |d.Proposals()|
        invariant i <= |d.Proposals()|
        invariant NotAnObject !in d.Proposals()[..i]
        invariant Storable(d.Proposals()) ==> view == Inserted(base, d, i)
      {
        var step := d.Proposals()[i];
        assert step in d.Proposals();
        if step.NotAnObject? {
          return view, None;
        }
        view := view[d.steps[i] := StepRow(d.plan, i, d.Tiers(), step)];
        i := i + 1;
      }
      assert d.Proposals()[..i] == d.Proposals();
      return view, Some(PlanProposed(d.plan, d.final.requiresApproval.GetOr(true)));
    }
  }

  lemma NothingToReplace(t: Tables, incident: IncidentId)
    ensures OldPlans(t, incident) == {} ==> PlansWithout(t, incident) == t.plans && StepsWithout(t, incident) == t.steps
  {
    if OldPlans(t, incident) == {} {
      forall p | p in t.plans
        ensures t.plans[p].incident != incident
      {
        assert p !in OldPlans(t, incident);
      }
    }
  }
}
