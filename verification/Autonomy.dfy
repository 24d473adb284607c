/**
  The chain of gates from the vector store's hits to the PDP's dispositions: retrieval, agents, stored
  plan, policy.
*/
module Autonomy {
  import opened Options
  import opened Reliability
  import opened Budgets
  import opened Retrieval
  import opened AgentGraph
  import opened AgentSafety
  import opened PlanStore
  import opened PlanHistory
  import opened Policy

  /** The delivery's final state is what a run on the script came to. */
  ghost predicate CameFrom(d: Delivery, limits: Limits, llm: Snapshot, rag: Snapshot, script: Script) {
    Invoke(limits, llm, rag, script).value == Some(d.final)
  }

  /** A run that got a plan stored was cleared by the gate, and its flags are complementary. */
  lemma StoredFlags(d: Delivery, limits: Limits, llm: Snapshot, rag: Snapshot, script: Script)
    requires Accepted(d) && CameFrom(d, limits, llm, rag, script)
    ensures Diagnosed(script) && Cleared(limits, script) && Answered(script.recommendation)
    ensures d.Proposals() == ProposedPlan(script.recommendation)
    ensures PlanOf(d).autonomyAllowed == MayActAlone(script)
    ensures PlanOf(d).requiresApproval == !MayActAlone(script)
  {
    hide Invoke, Cleared, MayActAlone;
    RunOutcome(limits, llm, rag, script);
  }

  /**
    What it takes for a step to be reported as auto_approve: the policy, the catalog's tier of the
    action, and the run's confidence and some hit of its retrieval.
  */
  ghost predicate Licensed(policy: Option<string>, d: Delivery, action: string, script: Script)
    requires Diagnosed(script)
  {
    && policy == Some("auto_low")
    && action in d.catalog && d.catalog[action].riskTier == "low"
    && StatedConfidence(script.investigation).Number? && StatedConfidence(script.investigation).value >= 0.7
    && exists h :: h in script.lookup.reply.episodic && h.score >= 0.75
  }

  /** The context the PDP builds for the k-th step: the catalog's tier of the k-th proposed action, and the run's licence. */
  lemma StoredContext(history: seq<Change>, d: Delivery, limits: Limits, llm: Snapshot, rag: Snapshot, script: Script,
                      ids: seq<StepId>, k: nat)
    requires Legal(history) && Latest(history, d.incident) == Some(d)
    requires CameFrom(d, limits, llm, rag, script)
    requires OrderedRead(Run(history), d.plan, ids) && k < |ids|
    ensures d.plan in Run(history).plans && Diagnosed(script) && Answered(script.recommendation)
    ensures var proposals := ProposedPlan(script.recommendation);
      && k < |proposals| && proposals[k].Proposal?
      && Contexts(Run(history), d.plan, ids)[k]
           == StepContext(Tier(d.Tiers(), proposals[k].action.GetOr("")), !MayActAlone(script), MayActAlone(script))
  {
    hide Legal, Run, Latest, OrderedRead, Invoke, Cleared, MayActAlone;
    LatestIsAccepted(history, d.incident);
    StoredFlags(d, limits, llm, rag, script);
    StoredPlan(history, d.incident);
    var t := Run(history);
    assert d.plan in OldPlans(t, d.incident);
    ReadIsStored(t, d.plan, ids);
    assert SeenSteps(t, ids) == ProposedSteps(d.Proposals(), d.Tiers());
    assert |SeenSteps(t, ids)| == |d.Proposals()|;
    assert d.Proposals()[k] in d.Proposals() && ids[k] in ids;
    assert SeenSteps(t, ids)[k].riskTier == ProposedSteps(d.Proposals(), d.Tiers())[k].riskTier;
  }

  /**
    After any history of deliveries, the PDP reports the k-th step of an incident's plan as auto_approve
    exactly when the environment's policy row says auto_low, the catalog called the k-th proposed
    action low, and the run behind the plan had a confidence of at least 0.7 and a hit scoring at
    least 0.75.
  */
  lemma AutonomyChain(history: seq<Change>, d: Delivery, limits: Limits, llm: Snapshot, rag: Snapshot, script: Script,
                      ids: seq<StepId>, policy: Option<string>, k: nat)
    requires ModeOf(policy).Some?
    requires Legal(history) && Latest(history, d.incident) == Some(d)
    requires CameFrom(d, limits, llm, rag, script)
    requires OrderedRead(Run(history), d.plan, ids) && k < |ids|
    ensures d.plan in Run(history).plans && Diagnosed(script) && Answered(script.recommendation)
    ensures var proposals := ProposedPlan(script.recommendation);
      && k < |proposals| && proposals[k].Proposal?
      && (EvaluateStep(ModeOf(policy).value, Contexts(Run(history), d.plan, ids)[k]) == AutoApprove <==>
          Licensed(policy, d, proposals[k].action.GetOr(""), script))
  {
    hide Legal, Run, Latest, OrderedRead, Invoke, Contexts;
    StoredContext(history, d, limits, llm, rag, script, ids, k);
  }

  lemma {:induction false} LatestIsAccepted(history: seq<Change>, incident: IncidentId)
    ensures var d := Latest(history, incident); d.Some? ==> Accepted(d.value) && d.value.incident == incident
  {
    if history == [] {
    } else {
      LatestIsAccepted(history[..|history| - 1], incident);
    }
  }

  lemma ReadIsStored(t: Tables, plan: PlanId, ids: seq<StepId>)
    requires OrderedRead(t, plan, ids)
    ensures forall s :: s in ids ==> s in t.steps
  {
  }

  /** The plan needs no human exactly when every proposed action is licensed. */
  lemma NoHumanIff(history: seq<Change>, d: Delivery, limits: Limits, llm: Snapshot, rag: Snapshot, script: Script,
                   ids: seq<StepId>, policy: Option<string>)
    requires ModeOf(policy).Some?
    requires Legal(history) && Latest(history, d.incident) == Some(d)
    requires CameFrom(d, limits, llm, rag, script)
    requires OrderedRead(Run(history), d.plan, ids)
    ensures d.plan in Run(history).plans && Diagnosed(script) && Answered(script.recommendation)
    ensures NotAnObject !in ProposedPlan(script.recommendation)
    ensures !PlanRequiresHuman(ModeOf(policy).value, Contexts(Run(history), d.plan, ids)) <==>
      forall p :: p in ProposedPlan(script.recommendation) ==> Licensed(policy, d, p.action.GetOr(""), script)
  {
    hide Legal, Run, Latest, OrderedRead, Invoke, PlanOf, Cleared, Licensed, EvaluateStep;
    LatestIsAccepted(history, d.incident);
    StoredFlags(d, limits, llm, rag, script);
    StoredPlan(history, d.incident);
    var t := Run(history);
    assert d.plan in OldPlans(t, d.incident);
    ReadIsStored(t, d.plan, ids);
    var contexts, proposals := Contexts(t, d.plan, ids), ProposedPlan(script.recommendation);
    assert |ids| == |SeenSteps(t, ids)| == |ProposedSteps(d.Proposals(), d.Tiers())| == |proposals|;
    forall k | 0 <= k < |ids|
      ensures proposals[k].Proposal?
      ensures EvaluateStep(ModeOf(policy).value, contexts[k]) == AutoApprove <==>
              Licensed(policy, d, proposals[k].action.GetOr(""), script)
    {
      AutonomyChain(history, d, limits, llm, rag, script, ids, policy, k);
    }
    EveryStep(ModeOf(policy).value, contexts);
    forall p | p in proposals
      ensures exists k :: 0 <= k < |ids| && proposals[k] == p
    {
    }
  }

  lemma EveryStep(mode: PolicyMode, contexts: seq<StepContext>)
    ensures !PlanRequiresHuman(mode, contexts) <==>
      forall k :: 0 <= k < |contexts| ==> EvaluateStep(mode, contexts[k]) == AutoApprove
  {
    if !PlanRequiresHuman(mode, contexts) {
      forall k | 0 <= k < |contexts|
        ensures EvaluateStep(mode, contexts[k]) == AutoApprove
      {
        assert contexts[k] in contexts;
      }
    }
  }

  // ----- The documented rule -----

  /** The catalog wants the action approved. */
  predicate Flagged(d: Delivery, action: string) {
    action in d.catalog && d.catalog[action].requiresApproval
  }

  /** The rule as documented: the step's tier, the catalog's own flag, the plan's autonomy flag. */
  function Documented(mode: PolicyMode, ctx: StepContext, flagged: bool): Disposition {
    EvaluateStep(mode, ctx.(catalogRequiresApproval := flagged))
  }

  /**
    The PDP passes the plan's flag where the documented rule has the catalog's.  Its disposition of a
    step is the documented one exactly unless the step is licensed and the catalog flags its action.
  */
  lemma AsDocumentedIff(history: seq<Change>, d: Delivery, limits: Limits, llm: Snapshot, rag: Snapshot, script: Script,
                        ids: seq<StepId>, policy: Option<string>, k: nat)
    requires ModeOf(policy).Some?
    requires Legal(history) && Latest(history, d.incident) == Some(d)
    requires CameFrom(d, limits, llm, rag, script)
    requires OrderedRead(Run(history), d.plan, ids) && k < |ids|
    ensures d.plan in Run(history).plans && Diagnosed(script) && Answered(script.recommendation)
    ensures var proposals := ProposedPlan(script.recommendation);
      && k < |proposals| && proposals[k].Proposal?
      && var action, ctx := proposals[k].action.GetOr(""), Contexts(Run(history), d.plan, ids)[k];
         EvaluateStep(ModeOf(policy).value, ctx) == Documented(ModeOf(policy).value, ctx, Flagged(d, action)) <==>
         !(Licensed(policy, d, action, script) && Flagged(d, action))
  {
    hide Legal, Run, Latest, OrderedRead, Invoke, Contexts, Flagged;
    StoredContext(history, d, limits, llm, rag, script, ids, k);
  }

  /** An agent run's plan is stored, and the PDP reports its step as auto_approve although the catalog flags the action. */
  ghost predicate FlaggedIsAutoApproved(history: seq<Change>, d: Delivery, limits: Limits, llm: Snapshot, rag: Snapshot,
                                        script: Script, ids: seq<StepId>, k: nat) {
    && CameFrom(d, limits, llm, rag, script)
    && Legal(history) && Latest(history, d.incident) == Some(d) && d.plan in Run(history).plans
    && OrderedRead(Run(history), d.plan, ids) && k < |ids| && k < |d.Proposals()| && d.Proposals()[k].Proposal?
    && Flagged(d, d.Proposals()[k].action.GetOr(""))
    && (forall s :: s in ids ==> s in Run(history).steps)
    && EvaluateStep(AutoLow, Contexts(Run(history), d.plan, ids)[k]) == AutoApprove
  }

  /** It does happen: a confident run with a precedent that proposes a low-risk action the catalog flags. */
  lemma FlaggedActionIsAutoApproved()
    ensures exists history, d, limits, llm, rag, script, ids, k ::
      FlaggedIsAutoApproved(history, d, limits, llm, rag, script, ids, k)
  {
    hide Invoke, Legal, Latest, OrderedRead, Run, Contexts, Cleared, MayActAlone, PlanOf;
    var action := "clear_cache";
    var proposal := Proposal.Proposal(Some(action), None);
    var turn := Turn(0, 0, Answers(10, Fields(Some(Number(0.9)), Some([proposal]))));
    var limits, script := Limits(4, 600, 120000), Script(0, turn, Lookup(0, 0, Found([Hit("past", 0.8)])), turn, 0, turn);
    var idle := Snapshot(0, Closed, 0);
    ClosedBreakersComplete(limits, idle, idle, script);
    RunOutcome(limits, idle, idle, script);
    ConfidentRun(limits, script);
    var final := Invoke(limits, idle, idle, script).value.value;
    var d: Delivery := Attempt(1, final, map[action := CatalogRow("low", true)], 7, [3], true);
    assert Accepted(d);
    var history := [Persist(d)];
    OneDelivery(d);
    StoredPlan(history, 1);
    var ids :| OrderedRead(Run(history), d.plan, ids);
    ReadIsStored(Run(history), d.plan, ids);
    assert |ids| == |SeenSteps(Run(history), ids)| == 1;
    StoredContext(history, d, limits, idle, idle, script, ids, 0);
    assert CameFrom(d, limits, idle, idle, script);
    assert FlaggedIsAutoApproved(history, d, limits, idle, idle, script, ids, 0);
  }

  lemma ConfidentRun(limits: Limits, script: Script)
    requires Diagnosed(script) && limits == Limits(4, 600, 120000) && script.start == script.gateAt == 0
    requires script.triage.answer.tokens == script.investigation.answer.tokens == 10
    requires StatedConfidence(script.investigation) == Number(0.9)
    requires script.lookup.reply.episodic == [Hit("past", 0.8)]
    ensures Cleared(limits, script) && MayActAlone(script)
  {
    assert Hit("past", 0.8) in script.lookup.reply.episodic;
  }

  lemma OneDelivery(d: Delivery)
    requires Accepted(d) && |d.steps| == 1
    ensures Legal([Persist(d)]) && Latest([Persist(d)], d.incident) == Some(d)
  {
    assert [Persist(d)][..0] == [];
    assert Run([]) == EMPTY;
    assert UnusedIds(EMPTY, d);
    assert Legal([]);
  }
}
