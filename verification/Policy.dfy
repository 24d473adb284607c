/**
  Dispositions of plan steps (src/aegis_services/policy_approval/policy.py) and the PDP's view of a plan
  (src/aegis_services/policy_approval/app.py:80-100).
*/
module Policy {
  import opened Options
  import opened PlanStore
  import opened PlanHistory

  datatype PolicyMode = Observe | Suggest | AutoLow

  datatype Disposition = AutoApprove | RequireApproval | Deny

  datatype StepContext = StepContext(riskTier: string, catalogRequiresApproval: bool, autonomyAllowed: bool)

  datatype StepOut = StepOut(
    step: StepId, ordinal: nat, action: string, params: map<string, string>, riskTier: string, disposition: Disposition)

  /** The mode column of the environment's policy row, if there is one; an unknown mode raises. */
  function ModeOf(row: Option<string>): Option<PolicyMode> {
    if row == None then Some(Suggest)
    else if row.value == "observe" then Some(Observe)
    else if row.value == "suggest" then Some(Suggest)
    else if row.value == "auto_low" then Some(AutoLow)
    else None
  }

  function EvaluateStep(mode: PolicyMode, ctx: StepContext): Disposition {
    match mode
    case Observe => RequireApproval
    case Suggest => RequireApproval
    case AutoLow =>
      if ctx.riskTier == "low" && !ctx.catalogRequiresApproval && ctx.autonomyAllowed then AutoApprove
      else RequireApproval
  }

  predicate PlanRequiresHuman(mode: PolicyMode, steps: seq<StepContext>) {
    exists ctx :: ctx in steps && EvaluateStep(mode, ctx) != AutoApprove
  }

  /** The context the PDP builds for a step: the plan's own flag stands in for the catalog's. */
  function ContextOf(plan: PlanRow, row: PlanStepRow): StepContext {
    StepContext(row.riskTier, plan.requiresApproval, plan.autonomyAllowed)
  }

  function Contexts(t: Tables, plan: PlanId, ids: seq<StepId>): seq<StepContext>
    requires plan in t.plans && forall s :: s in ids ==> s in t.steps
  {
    seq(|ids|, k requires 0 <= k < |ids| => assert ids[k] in ids; ContextOf(t.plans[plan], t.steps[ids[k]]))
  }

  /** _plan_out, over the rows of the ordered read; None where reading the mode raises. */
  method PlanOut(t: Tables, plan: PlanId, ids: seq<StepId>, policy: Option<string>) returns (out: Option<seq<StepOut>>)
    requires plan in t.plans && OrderedRead(t, plan, ids)
    ensures out == None <==> policy.Some? && policy.value !in ["observe", "suggest", "auto_low"]
    ensures out.Some? ==>
      && |out.value| == |ids|
      && forall k :: 0 <= k < |ids| ==>
           && out.value[k].step == ids[k] && out.value[k].ordinal == t.steps[ids[k]].ordinal
           && out.value[k].action == t.steps[ids[k]].action && out.value[k].params == t.steps[ids[k]].params
           && out.value[k].riskTier == t.steps[ids[k]].riskTier
           && out.value[k].disposition == EvaluateStep(ModeOf(policy).value, Contexts(t, plan, ids)[k])
  {
    var mode := ModeOf(policy);
    if mode == None {
      return None;
    }
    var steps: seq<StepOut> := [];
    for i := 0 to |ids|
      invariant |steps| == i
      invariant forall k :: 0 <= k < i ==> ids[k] in t.steps
      invariant forall k :: 0 <= k < i ==>
        var row := t.steps[ids[k]];
        steps[k] == StepOut(ids[k], row.ordinal, row.action, row.params, row.riskTier,
                            EvaluateStep(mode.value, ContextOf(t.plans[plan], row)))
    {
      assert ids[i] in ids;
      var row := t.steps[ids[i]];
      var disposition := EvaluateStep(mode.value, ContextOf(t.plans[plan], row));
      steps := steps + [StepOut(ids[i], row.ordinal, row.action, row.params, row.riskTier, disposition)];
    }
    return Some(steps);
  }
}
