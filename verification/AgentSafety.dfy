/**
  What every agent run guarantees, whatever the model, the retrieval service and the clock answer
  (src/aegis_services/orchestrator/graph.py:28-88, agents.py:36-107).
*/
module AgentSafety {
  import opened Options
  import opened Reliability
  import opened BreakerRate
  import opened Budgets
  import opened Retrieval
  import opened AgentGraph

  function Positive(n: int): nat {
    if n > 0 then n else 0
  }

  predicate Answered(t: Turn) {
    t.answer.Answers? && !t.answer.body.Unreadable?
  }

  /** The confidence of the investigation's answer; 0 if it names none or is no JSON. */
  function StatedConfidence(t: Turn): Confidence
    requires Answered(t)
  {
    if t.answer.body.Fields? then t.answer.body.confidence.GetOr(Number(0.0)) else Number(0.0)
  }

  function ProposedPlan(t: Turn): seq<Proposal>
    requires Answered(t)
  {
    if t.answer.body.Fields? then t.answer.body.plan.GetOr([]) else []
  }

  /** The two diagnosing calls and the retrieval came back with something readable. */
  predicate Diagnosed(script: Script) {
    Answered(script.triage) && script.lookup.reply.Found? && Answered(script.investigation)
  }

  predicate WithinBudget(limits: Limits, script: Script)
    requires Diagnosed(script)
  {
    && limits.iterations > 2
    && Positive(script.triage.answer.tokens) + Positive(script.investigation.answer.tokens) < limits.tokens
    && script.gateAt - script.start < limits.wallclock
  }

  /** The first of the four reasons for which the gate sends a run to a human; low confidence is the last. */
  function EscalatesFor(limits: Limits, script: Script): EscalationReason
    requires Diagnosed(script)
  {
    if limits.iterations <= 2 then Exhausted(IterationBudget)
    else if Positive(script.triage.answer.tokens) + Positive(script.investigation.answer.tokens) >= limits.tokens
      then Exhausted(TokenBudget)
    else if script.gateAt - script.start >= limits.wallclock then Exhausted(WallclockBudget)
    else LowConfidence
  }

  /** What the inputs must be for a run to get as far as a plan. */
  predicate Cleared(limits: Limits, script: Script)
    requires Diagnosed(script)
  {
    WithinBudget(limits, script) && !StatedConfidence(script.investigation).Below(0.4)
  }

  lemma SpentOnDiagnosis(start: int, a: int, b: int)
    ensures Spent([Start(start), Iteration, Tokens(a), Iteration, Tokens(b)])
         == Spending(start, true, 2, Positive(a) + Positive(b))
  {
    var one, two := [Start(start)], [Start(start), Iteration];
    var three, four := two + [Tokens(a)], two + [Tokens(a), Iteration];
    assert [] + [Start(start)] == one && one + [Iteration] == two && three + [Iteration] == four;
    assert four + [Tokens(b)] == [Start(start), Iteration, Tokens(a), Iteration, Tokens(b)];
    SpentSnoc([], Start(start));
    SpentSnoc(one, Iteration);
    SpentSnoc(two, Tokens(a));
    SpentSnoc(three, Iteration);
    SpentSnoc(four, Tokens(b));
  }

  /** The charges of a run that reached the gate, and of one that went on to recommend. */
  function DiagnosisCharges(script: Script): seq<Charge>
    requires Diagnosed(script)
  {
    [Start(script.start), Iteration, Tokens(script.triage.answer.tokens),
     Iteration, Tokens(script.investigation.answer.tokens)]
  }

  /** The state in which the gate finds a run. */
  lemma UpToTheGate(llm: Snapshot, rag: Snapshot, script: Script)
    ensures var triaged := Triage(Shared([Start(script.start)], llm, rag, 0), BLANK, script.triage);
      && triaged.shared.calls <= 1
      && (triaged.value.Some? ==>
            var d := Investigate(triaged.shared, triaged.value.value, script.lookup, script.investigation);
            && d.shared.calls <= 2
            && (d.value.Some? ==> AtGate(script, d)))
  {
    hide AfterCall, Admits, HasPrecedent, PrecedentGate;
    if script.lookup.reply.Found? {
      GateSeesAllHits(script.lookup.reply.episodic, PRECEDENT_THRESHOLD);
    }
  }

  ghost predicate AtGate(script: Script, d: AgentGraph.Step<IncidentState>) {
    && Diagnosed(script)
    && d.shared.calls == 2
    && d.shared.charges == DiagnosisCharges(script)
    && d.value == Some(BLANK.(hasPrecedent := HasPrecedent(script.lookup.reply.episodic, PRECEDENT_THRESHOLD),
                              confidence := Some(StatedConfidence(script.investigation))))
  }

  lemma GateDecides(limits: Limits, script: Script, d: AgentGraph.Step<IncidentState>)
    requires AtGate(script, d)
    ensures var s := Gate(d.shared, d.value.value, limits, script.gateAt);
      && s.decision == Some(if Cleared(limits, script) then Recommend else Escalate)
      && s.escalated == Some(!Cleared(limits, script))
      && s.plan == None && s.iterations == 2
      && s.tokensUsed == Positive(script.triage.answer.tokens) + Positive(script.investigation.answer.tokens)
      && (Cleared(limits, script) ==>
            && s.autonomyAllowed == Some(MayActAlone(script)) && s.requiresApproval == Some(!MayActAlone(script)))
      && (!Cleared(limits, script) ==> s.autonomyAllowed == None && s.requiresApproval == None)
      && (!Cleared(limits, script) ==> s.reason == Some(EscalatesFor(limits, script)))
  {
    hide HasPrecedent;
    SpentOnDiagnosis(script.start, script.triage.answer.tokens, script.investigation.answer.tokens);
  }

  /** The agents' part of the licence to act without a human. */
  ghost predicate MayActAlone(script: Script)
    requires Diagnosed(script)
  {
    && StatedConfidence(script.investigation).Reaches(0.7)
    && HasPrecedent(script.lookup.reply.episodic, 0.75)
  }

  /**
    A run that does not raise ends in plan_ready or in escalate, `escalated` saying which; it has a plan
    exactly when the budget was not exhausted at the gate and the confidence is not below the floor, and
    otherwise names the first reason that holds.
  */
  lemma RunOutcome(limits: Limits, llm: Snapshot, rag: Snapshot, script: Script)
    requires Invoke(limits, llm, rag, script).value.Some?
    ensures Diagnosed(script)
    ensures var run := Invoke(limits, llm, rag, script);
      var final := run.value.value;
      && final.iterations == 2
      && final.tokensUsed == Positive(script.triage.answer.tokens) + Positive(script.investigation.answer.tokens)
      && final.confidence == Some(StatedConfidence(script.investigation))
      && (final.hasPrecedent <==> HasPrecedent(script.lookup.reply.episodic, 0.75))
      && if Cleared(limits, script) then
        && final.decision == Some(PlanReady) && final.escalated == Some(false) && run.shared.calls == 3
        && Answered(script.recommendation) && final.plan == Some(ProposedPlan(script.recommendation))
        && final.autonomyAllowed == Some(MayActAlone(script)) && final.requiresApproval == Some(!MayActAlone(script))
      else
        && final.decision == Some(Escalate) && final.escalated == Some(true) && run.shared.calls == 2
        && final.plan == None && final.autonomyAllowed == None && final.requiresApproval == None
        && final.reason == Some(EscalatesFor(limits, script))
  {
    hide Triage, Investigate, Gate, AtGate, Cleared, MayActAlone, AfterCall, Admits, HasPrecedent, Diagnosed;
    UpToTheGate(llm, rag, script);
    var triaged := Triage(Shared([Start(script.start)], llm, rag, 0), BLANK, script.triage);
    var d := Investigate(triaged.shared, triaged.value.value, script.lookup, script.investigation);
    assert AtGate(script, d);
    AtGateFacts(script, d);
    GateDecides(limits, script, d);
    GateKeepsRest(d, limits, script.gateAt);
  }

  lemma AtGateFacts(script: Script, d: AgentGraph.Step<IncidentState>)
    requires AtGate(script, d)
    ensures Diagnosed(script) && d.shared.calls == 2 && d.shared.charges == DiagnosisCharges(script)
    ensures d.value.Some? && d.value.value.confidence == Some(StatedConfidence(script.investigation))
    ensures d.value.value.hasPrecedent <==> HasPrecedent(script.lookup.reply.episodic, 0.75)
  {
    hide HasPrecedent;
  }

  lemma GateKeepsRest(d: AgentGraph.Step<IncidentState>, limits: Limits, now: int)
    requires d.value.Some?
    ensures Gate(d.shared, d.value.value, limits, now).hasPrecedent == d.value.value.hasPrecedent
    ensures Gate(d.shared, d.value.value, limits, now).confidence == d.value.value.confidence
  {
  }

  // ----- Which runs complete, and what they leave in the breakers -----

  /** Not open, or open for at least 20 seconds. */
  predicate LetsThrough(b: Snapshot, now: int) {
    b.state != Open || now - b.openedAt >= 20
  }

  const FRESH := Snapshot(0, Closed, 0)

  /** The breaker after one more call: closed by a success, and tripped by a failure from the fourth one on. */
  predicate LeftBy(before: Snapshot, t: Turn, after: Snapshot) {
    if t.answer.Answers? then after.state == Closed && after.failures == 0
    else
      && after.failures == before.failures + 1
      && (after.failures >= 4 ==> after.state == Open && after.openedAt == t.done)
      && (after.failures < 4 && before.state == Closed ==> after.state == Closed)
  }

  lemma OneAsk(d: Shared, t: Turn)
    ensures var asked := Ask(d, t);
      && (asked.value.Some? <==> LetsThrough(d.llm, t.asked) && t.answer.Answers?)
      && (asked.value.Some? ==> asked.value.value == t.answer.body)
      && (if LetsThrough(d.llm, t.asked) then LeftBy(d.llm, t, asked.shared.llm) && asked.shared.calls == d.calls + 1
          else asked.shared == d)
      && asked.shared.rag == d.rag
  {
  }

  lemma OneLookup(d: Shared, l: Lookup)
    ensures var found := Retrieve(d, l);
      && (found.value.Some? <==> LetsThrough(d.rag, l.asked) && l.reply.Found?)
      && found.shared.llm == d.llm && found.shared.calls == d.calls
  {
    hide PrecedentGate;
  }

  /**
    A run completes exactly if the breakers let its first question and its retrieval through and the
    diagnosis is readable, and then, if the gate clears it, the recommendation is: the second and the
    third question are never refused, because the first one's answer has closed the breaker.
  */
  lemma {:induction false} RunCompletesIff(limits: Limits, llm: Snapshot, rag: Snapshot, script: Script)
    ensures Invoke(limits, llm, rag, script).value.Some? <==>
      && LetsThrough(llm, script.triage.asked) && LetsThrough(rag, script.lookup.asked) && Diagnosed(script)
      && (Cleared(limits, script) ==> Answered(script.recommendation))
  {
    hide Ask, Retrieve, Gate, AtGate, LetsThrough, LeftBy, Cleared, Spent, HasPrecedent, MayActAlone;
    var start := Shared([Start(script.start)], llm, rag, 0);
    var triaged := Triage(start, BLANK, script.triage);
    OneAsk(Iterated(start), script.triage);
    UpToTheGate(llm, rag, script);
    if triaged.value.Some? {
      var found := Retrieve(Iterated(triaged.shared), script.lookup);
      OneLookup(Iterated(triaged.shared), script.lookup);
      OneAsk(found.shared, script.investigation);
      ClosedLetsThrough(llm, script.triage, triaged.shared.llm, script.investigation.asked);
      var d := Investigate(triaged.shared, triaged.value.value, script.lookup, script.investigation);
      if d.value.Some? {
        AtGateFacts(script, d);
        GateDecides(limits, script, d);
        OneAsk(Iterated(d.shared), script.recommendation);
        ClosedLetsThrough(found.shared.llm, script.investigation, d.shared.llm, script.recommendation.asked);
      }
    }
  }

  lemma ClosedLetsThrough(before: Snapshot, t: Turn, after: Snapshot, now: int)
    requires LeftBy(before, t, after) && t.answer.Answers?
    ensures LetsThrough(after, now)
  {
  }

  /**
    What any run, raising or not, leaves in the model's breaker: nothing new if it was refused, and
    otherwise what its last call leaves, all calls before it having been answered.
  */
  lemma {:induction false} BreakerAfterRun(limits: Limits, llm: Snapshot, rag: Snapshot, script: Script)
    ensures var shared := Invoke(limits, llm, rag, script).shared;
      && (shared.calls == 0 <==> !LetsThrough(llm, script.triage.asked))
      && (shared.calls == 0 ==> shared.llm == llm)
      && (shared.calls == 1 ==> LeftBy(llm, script.triage, shared.llm))
      && (shared.calls == 2 ==> LeftBy(FRESH, script.investigation, shared.llm))
      && (shared.calls == 3 ==> LeftBy(FRESH, script.recommendation, shared.llm))
      && (shared.calls >= 2 ==> Answered(script.triage) && script.lookup.reply.Found?)
      && (shared.calls == 3 ==> Answered(script.investigation))
  {
    hide Ask, Retrieve, Gate, AtGate, LetsThrough, Spent;
    var start := Shared([Start(script.start)], llm, rag, 0);
    var triaged := Triage(start, BLANK, script.triage);
    OneAsk(Iterated(start), script.triage);
    if triaged.value.Some? {
      var found := Retrieve(Iterated(triaged.shared), script.lookup);
      OneLookup(Iterated(triaged.shared), script.lookup);
      OneAsk(found.shared, script.investigation);
      ClosedLetsThrough(llm, script.triage, triaged.shared.llm, script.investigation.asked);
      var d := Investigate(triaged.shared, triaged.value.value, script.lookup, script.investigation);
      if d.value.Some? {
        OneAsk(Iterated(d.shared), script.recommendation);
        ClosedLetsThrough(found.shared.llm, script.investigation, d.shared.llm, script.recommendation.asked);
      }
    }
  }

  /** No run, raising or not, asks the model more than three times. */
  lemma {:induction false} AtMostThreeCalls(limits: Limits, llm: Snapshot, rag: Snapshot, script: Script)
    ensures Invoke(limits, llm, rag, script).shared.calls <= 3
  {
    hide Triage, Investigate, Gate, AtGate, AfterCall, Admits;
    UpToTheGate(llm, rag, script);
    var triaged := Triage(Shared([Start(script.start)], llm, rag, 0), BLANK, script.triage);
    if triaged.value.Some? {
      var d := Investigate(triaged.shared, triaged.value.value, script.lookup, script.investigation);
      if d.value.Some? {
        AtGateFacts(script, d);
      }
    }
  }

  /**
    A run with a plan spends less than the token ceiling plus its last answer; the usage it reports
    leaves that answer out.
  */
  lemma PlanTokens(limits: Limits, llm: Snapshot, rag: Snapshot, script: Script)
    requires var run := Invoke(limits, llm, rag, script); run.value.Some? && run.value.value.decision == Some(PlanReady)
    ensures var run := Invoke(limits, llm, rag, script);
      && Answered(script.recommendation)
      && TokenSum(run.shared.charges) == run.value.value.tokensUsed + Positive(script.recommendation.answer.tokens)
      && run.value.value.tokensUsed < limits.tokens
      && IterationCount(run.shared.charges) == run.value.value.iterations + 1 <= limits.iterations
  {
    hide Triage, Investigate, Gate, AtGate, Cleared, MayActAlone, AfterCall, Admits, HasPrecedent, TokenSum,
      IterationCount, Spent;
    UpToTheGate(llm, rag, script);
    RunOutcome(limits, llm, rag, script);
    var triaged := Triage(Shared([Start(script.start)], llm, rag, 0), BLANK, script.triage);
    var d := Investigate(triaged.shared, triaged.value.value, script.lookup, script.investigation);
    AtGateFacts(script, d);
    GateDecides(limits, script, d);
    ClearedFacts(limits, script);
    var charges := DiagnosisCharges(script);
    var extra := Tokens(script.recommendation.answer.tokens);
    SpentSnoc(charges, Iteration);
    SpentSnoc(charges + [Iteration], extra);
    SpentOnDiagnosis(script.start, script.triage.answer.tokens, script.investigation.answer.tokens);
    CountersFollowHistory(charges + [Iteration] + [extra]);
  }

  lemma ClearedFacts(limits: Limits, script: Script)
    requires Diagnosed(script) && Cleared(limits, script)
    ensures Positive(script.triage.answer.tokens) + Positive(script.investigation.answer.tokens) < limits.tokens
    ensures limits.iterations > 2
  {
  }

  /** With room for fewer than three iterations every run escalates, if it does not raise. */
  lemma TwoIterationsNeverPlan(limits: Limits, llm: Snapshot, rag: Snapshot, script: Script)
    requires limits.iterations <= 2
    ensures var run := Invoke(limits, llm, rag, script);
      run.value.Some? ==> run.value.value.decision == Some(Escalate)
  {
    hide Invoke;
    if Invoke(limits, llm, rag, script).value.Some? {
      RunOutcome(limits, llm, rag, script);
    }
  }

  /**
    The floor is not "at least 0.4": a plan comes from a confidence of at least 0.4 or from NaN, which
    no comparison stops, but NaN never licenses autonomy.
  */
  lemma {:induction false} PlanConfidence(limits: Limits, llm: Snapshot, rag: Snapshot, script: Script)
    requires Invoke(limits, llm, rag, script).value.Some?
    requires Invoke(limits, llm, rag, script).value.value.decision == Some(PlanReady)
    ensures Diagnosed(script)
    ensures var c := StatedConfidence(script.investigation);
      && (c.Reaches(0.4) <==> c != NaN)
      && (c == NaN ==> Invoke(limits, llm, rag, script).value.value.autonomyAllowed == Some(false))
  {
    hide Invoke;
    RunOutcome(limits, llm, rag, script);
  }

  /** With both breakers closed, a run fails only if one of the four answers does. */
  lemma {:induction false} ClosedBreakersComplete(limits: Limits, llm: Snapshot, rag: Snapshot, script: Script)
    requires llm.state == Closed && rag.state == Closed && Diagnosed(script) && Answered(script.recommendation)
    ensures Invoke(limits, llm, rag, script).value.Some?
  {
    hide Spent, PrecedentGate, ExhaustedBy;
  }

  /** An answer that names no confidence never leads to a plan, and the plan is the one that the answer names, or empty. */
  lemma {:induction false} AnswersDecide(limits: Limits, llm: Snapshot, rag: Snapshot, script: Script)
    requires Invoke(limits, llm, rag, script).value.Some?
    ensures var final := Invoke(limits, llm, rag, script).value.value;
      && Answered(script.investigation)
      && (final.decision == Some(PlanReady) ==>
            && script.investigation.answer.body.Fields? && script.investigation.answer.body.confidence.Some?
            && final.confidence == script.investigation.answer.body.confidence
            && Answered(script.recommendation)
            && var body := script.recommendation.answer.body;
               final.plan == Some(if body.Fields? && body.plan.Some? then body.plan.value else []))
  {
    hide Invoke;
    RunOutcome(limits, llm, rag, script);
  }

  lemma NotANumberGetsAPlan()
    ensures exists limits, llm, rag, script :: PlansOnNaN(limits, llm, rag, script)
  {
    hide Invoke;
    var answer := Answers(10, Fields(Some(NaN), None));
    var turn := Turn(0, 0, answer);
    var limits, script := Limits(4, 600, 120000), Script(0, turn, Lookup(0, 0, Found([])), turn, 0, turn);
    var idle := Snapshot(0, Closed, 0);
    ClosedBreakersComplete(limits, idle, idle, script);
    RunOutcome(limits, idle, idle, script);
    assert PlansOnNaN(limits, idle, idle, script);
  }

  ghost predicate PlansOnNaN(limits: Limits, llm: Snapshot, rag: Snapshot, script: Script) {
    var run := Invoke(limits, llm, rag, script);
    && run.value.Some? && run.value.value.decision == Some(PlanReady)
    && Diagnosed(script) && StatedConfidence(script.investigation) == NaN
  }
}
