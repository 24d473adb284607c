/**
  The agent workflow of one incident: triage -> investigate -> gate -> {recommend -> finalize | end}
  (src/aegis_services/orchestrator/agents.py:36-107, src/aegis_services/orchestrator/graph.py:28-88).

  What the model, the retrieval service and the clock answer is a Script.  The texts that the agents
  hand to each other are left out of the state.
*/
module AgentGraph {
  import opened Options
  import opened Reliability
  import opened BreakerRate
  import opened Budgets
  import opened Retrieval

  const CONFIDENCE_FLOOR := 0.4
  const AUTONOMY_CONFIDENCE := 0.7
  const FAILURE_THRESHOLD := 4
  const COOLDOWN := 20

  /** What `float` makes of the answer's confidence; JSON as the source reads it admits NaN. */
  datatype Confidence = Number(value: real) | NaN {
    /** The source's `confidence < floor`, false of NaN. */
    predicate Below(floor: real) {
      Number? && value < floor
    }

    /** The source's `confidence >= floor`, false of NaN. */
    predicate Reaches(floor: real) {
      Number? && value >= floor
    }
  }

  /** One proposed step; the key may be missing, and what is not an object fails when it is stored. */
  datatype Proposal = Proposal(action: Option<string>, params: Option<map<string, string>>) | NotAnObject

  /** The text of an answer: fields, no JSON at all (kept as a summary only), or something no agent can read. */
  datatype Body =
    | Fields(confidence: Option<Confidence>, plan: Option<seq<Proposal>>)
    | NotJson
    | Unreadable

  datatype Answer = Fails | Answers(tokens: int, body: Body)

  datatype Turn = Turn(asked: int, done: int, answer: Answer)

  /** The retrieval service is unreachable, sends something unreadable, or its store returned these hits. */
  datatype Reply = Unreachable | Garbled | Found(episodic: seq<Hit>)

  datatype Lookup = Lookup(asked: int, done: int, reply: Reply)

  datatype Script = Script(
    start: int, triage: Turn, lookup: Lookup, investigation: Turn, gateAt: int, recommendation: Turn)

  datatype Decision = Escalate | Recommend | PlanReady

  datatype EscalationReason = Exhausted(reason: Reason) | LowConfidence

  /** The keys of IncidentState that decide anything; None is a key that is not set. */
  datatype IncidentState = IncidentState(
    hasPrecedent: bool,
    confidence: Option<Confidence>,
    plan: Option<seq<Proposal>>,
    autonomyAllowed: Option<bool>,
    requiresApproval: Option<bool>,
    escalated: Option<bool>,
    reason: Option<EscalationReason>,
    iterations: nat,
    tokensUsed: nat,
    decision: Option<Decision>)

  const BLANK := IncidentState(false, None, None, None, None, None, None, 0, 0, None)

  /** What the agents share: the charges so far, the two breakers, and how many answers were asked for. */
  datatype Shared = Shared(charges: seq<Charge>, llm: Snapshot, rag: Snapshot, calls: nat)

  /** What a node leaves behind; no value is an exception that ends the run. */
  datatype Step<T> = Step(shared: Shared, value: Option<T>)

  function Ask(d: Shared, t: Turn): Step<Body> {
    var call := Call(t.asked, t.done, t.answer.Answers?);
    var after := d.(llm := AfterCall(FAILURE_THRESHOLD, COOLDOWN, d.llm, call));
    if !Admits(FAILURE_THRESHOLD, COOLDOWN, d.llm, call) then Step(after, None)
    else if t.answer.Fails? then Step(after.(calls := d.calls + 1), None)
    else Step(after.(calls := d.calls + 1, charges := d.charges + [Tokens(t.answer.tokens)]), Some(t.answer.body))
  }

  function Retrieve(d: Shared, l: Lookup): Step<bool> {
    var call := Call(l.asked, l.done, !l.reply.Unreachable?);
    var after := d.(rag := AfterCall(FAILURE_THRESHOLD, COOLDOWN, d.rag, call));
    if !Admits(FAILURE_THRESHOLD, COOLDOWN, d.rag, call) || !l.reply.Found? then Step(after, None)
    else Step(after, Some(PrecedentGate(Sorting.SortDescending(l.reply.episodic, SCORE), PRECEDENT_THRESHOLD)))
  }

  function Iterated(d: Shared): Shared {
    d.(charges := d.charges + [Iteration])
  }

  function Triage(d: Shared, s: IncidentState, t: Turn): Step<IncidentState> {
    var asked := Ask(Iterated(d), t);
    Step(asked.shared, if asked.value == None || asked.value.value.Unreadable? then None else Some(s))
  }

  function Investigate(d: Shared, s: IncidentState, l: Lookup, t: Turn): Step<IncidentState> {
    var found := Retrieve(Iterated(d), l);
    if found.value == None then Step(found.shared, None)
    else
      var asked := Ask(found.shared, t);
      if asked.value == None || asked.value.value.Unreadable? then Step(asked.shared, None)
      else
        var answered := if asked.value.value.Fields? then asked.value.value.confidence else None;
        Step(asked.shared, Some(s.(hasPrecedent := found.value.value, confidence := Some(answered.GetOr(Number(0.0))))))
  }

  function Gate(d: Shared, s: IncidentState, limits: Limits, now: int): IncidentState {
    var spent := Spent(d.charges);
    var counted := s.(iterations := spent.iterations, tokensUsed := spent.tokens);
    var exhausted := ExhaustedBy(limits, spent, now);
    var confidence := s.confidence.GetOr(Number(0.0));
    if exhausted.Some? then
      counted.(escalated := Some(true), reason := Some(Exhausted(exhausted.value)), decision := Some(Escalate))
    else if confidence.Below(CONFIDENCE_FLOOR) then
      counted.(escalated := Some(true), reason := Some(LowConfidence), decision := Some(Escalate))
    else
      var autonomy := s.hasPrecedent && confidence.Reaches(AUTONOMY_CONFIDENCE);
      counted.(autonomyAllowed := Some(autonomy), requiresApproval := Some(!autonomy),
               escalated := Some(false), decision := Some(Recommend))
  }

  function Recommendation(d: Shared, s: IncidentState, t: Turn): Step<IncidentState> {
    var asked := Ask(Iterated(d), t);
    if asked.value == None || asked.value.value.Unreadable? then Step(asked.shared, None)
    else
      var answered := if asked.value.value.Fields? then asked.value.value.plan else None;
      Step(asked.shared, Some(s.(plan := Some(answered.GetOr([])))))
  }

  /** The graph, from the entry point to END, with a budget started at the beginning. */
  function Invoke(limits: Limits, llm: Snapshot, rag: Snapshot, script: Script): Step<IncidentState> {
    var triaged := Triage(Shared([Start(script.start)], llm, rag, 0), BLANK, script.triage);
    if triaged.value == None then triaged
    else
      var investigated := Investigate(triaged.shared, triaged.value.value, script.lookup, script.investigation);
      if investigated.value == None then investigated
      else
        var gated := Gate(investigated.shared, investigated.value.value, limits, script.gateAt);
        if gated.decision == Some(Escalate) then Step(investigated.shared, Some(gated))
        else
          var recommended := Recommendation(investigated.shared, gated, script.recommendation);
          if recommended.value == None then recommended
          else Step(recommended.shared, Some(recommended.value.value.(decision := Some(PlanReady))))
  }

  /** Four failures in a row have opened the breaker, the latest of them less than 20 seconds ago. */
  ghost predicate Stops(b: CircuitBreaker, now: int)
    reads b
  {
    FailureRun(b.history) >= 4 && now - LatestFailure(b.history).GetOr(now) < 20
  }

  /** What a retrieval leaves in the breaker's history: an answer, readable or not, is a success. */
  predicate Recorded(admitted: bool, before: seq<Event>, after: seq<Event>, l: Lookup) {
    after == before + [Query(l.asked)] +
      if !admitted then [] else if l.reply.Unreachable? then [Failure(l.done)] else [Success]
  }

  /** The run as the source performs it, on shared breakers, a budget and a state that the nodes write into. */
  class AgentRun {
    const llm: CircuitBreaker
    const rag: CircuitBreaker
    const budget: Budget
    var state: IncidentState
    ghost var calls: nat

    ghost predicate Valid()
      reads this, llm, rag, budget
    {
      && llm != rag
      && llm.Valid() && llm.threshold == FAILURE_THRESHOLD && llm.cooldown == COOLDOWN
      && rag.Valid() && rag.threshold == FAILURE_THRESHOLD && rag.cooldown == COOLDOWN
      && budget.Valid()
    }

    ghost function Now(): Shared
      reads this, llm, rag, budget
    {
      Shared(budget.history, Replay(llm.threshold, llm.cooldown, llm.history),
             Replay(rag.threshold, rag.cooldown, rag.history), calls)
    }

    constructor (limits: Limits, llm: CircuitBreaker, rag: CircuitBreaker, now: int)
      requires llm != rag && llm.Valid() && rag.Valid()
      requires llm.threshold == rag.threshold == FAILURE_THRESHOLD && llm.cooldown == rag.cooldown == COOLDOWN
      ensures Valid() && fresh(budget) && this.llm == llm && this.rag == rag && budget.limits == limits
      ensures state == BLANK
      ensures Now() == Shared([Charge.Start(now)], Replay(FAILURE_THRESHOLD, COOLDOWN, llm.history),
                              Replay(FAILURE_THRESHOLD, COOLDOWN, rag.history), 0)
    {
      this.llm, this.rag := llm, rag;
      var b := new Budget(limits);
      b.Start(now);
      budget := b;
      state := BLANK;
      calls := 0;
    }

    method AskModel(t: Turn) returns (body: Option<Body>)
      requires Valid()
      modifies `calls, llm, budget
      ensures Valid() && Step(Now(), body) == old(Ask(Now(), t))
      ensures var admitted := calls > old(calls);
        && calls == old(calls) + (if admitted then 1 else 0)
        && (old(NotBefore(llm.history, t.asked)) ==> (admitted <==> !old(Stops(llm, t.asked))))
        && llm.history == old(llm.history) + [Query(t.asked)] +
             (if !admitted then [] else if t.answer.Answers? then [Success] else [Failure(t.done)])
        && budget.history == old(budget.history) +
             (if admitted && t.answer.Answers? then [Tokens(t.answer.tokens)] else [])
        && body == if admitted && t.answer.Answers? then Some(t.answer.body) else None
    {
      hide Replay, Spent, AfterCall, Admits;
      var admitted := GuardedCall(llm, Call(t.asked, t.done, t.answer.Answers?));
      if !admitted {
        return None;
      }
      calls := calls + 1;
      if t.answer.Fails? {
        return None;
      }
      budget.ChargeTokens(t.answer.tokens);
      return Some(t.answer.body);
    }

    method RetrieveEvidence(l: Lookup) returns (hasPrecedent: Option<bool>)
      requires Valid()
      modifies rag
      ensures Valid() && Step(Now(), hasPrecedent) == old(Retrieve(Now(), l))
      ensures exists admitted: bool {:trigger Recorded(admitted, old(rag.history), rag.history, l)} ::
        && Recorded(admitted, old(rag.history), rag.history, l)
        && (old(NotBefore(rag.history, l.asked)) ==> (admitted <==> !old(Stops(rag, l.asked))))
        && (hasPrecedent.Some? <==> admitted && l.reply.Found?)
        && (hasPrecedent.Some? ==> (hasPrecedent.value <==> HasPrecedent(l.reply.episodic, 0.75)))
    {
      hide Replay, Spent, AfterCall, Admits;
      var admitted := GuardedCall(rag, Call(l.asked, l.done, !l.reply.Unreachable?));
      assert Recorded(admitted, old(rag.history), rag.history, l);
      if !admitted || !l.reply.Found? {
        return None;
      }
      GateSeesAllHits(l.reply.episodic, PRECEDENT_THRESHOLD);
      var bundle := new EvidenceBundle([], l.reply.episodic);
      return Some(PrecedentGate(bundle.episodic, PRECEDENT_THRESHOLD));
    }

    method TriageAgent(t: Turn) returns (ok: bool)
      requires Valid()
      modifies `calls, llm, budget
      ensures Valid() && Step(Now(), if ok then Some(state) else None) == old(Triage(Now(), state, t))
    {
      hide Ask, Replay, Spent;
      budget.ChargeIteration();
      var body := AskModel(t);
      ok := body.Some? && !body.value.Unreadable?;
    }

    method InvestigationAgent(l: Lookup, t: Turn) returns (ok: bool)
      requires Valid()
      modifies this, llm, rag, budget
      ensures Valid() && Step(Now(), if ok then Some(state) else None) == old(Investigate(Now(), state, l, t))
    {
      hide Ask, Retrieve, Replay, Spent;
      ghost var before := state;
      budget.ChargeIteration();
      var found := RetrieveEvidence(l);
      if found == None {
        return false;
      }
      state := state.(hasPrecedent := found.value);
      var body := AskModel(t);
      if body == None || body.value.Unreadable? {
        return false;
      }
      var answered := if body.value.Fields? then body.value.confidence else None;
      state := state.(confidence := Some(answered.GetOr(Number(0.0))));
      return true;
    }

    method GateNode(now: int)
      requires Valid()
      modifies `state
      ensures Valid() && Now() == old(Now())
      ensures state == old(Gate(Now(), state, budget.limits, now))
    {
      hide Replay, Spent;
      state := state.(iterations := budget.iterations, tokensUsed := budget.tokens);
      var exhausted := budget.Exhausted(now);
      if exhausted.Some? {
        state := state.(escalated := Some(true), reason := Some(Exhausted(exhausted.value)), decision := Some(Escalate));
        return;
      }
      var confidence := state.confidence.GetOr(Number(0.0));
      if confidence.Below(CONFIDENCE_FLOOR) {
        state := state.(escalated := Some(true), reason := Some(LowConfidence), decision := Some(Escalate));
        return;
      }
      var autonomy := state.hasPrecedent && confidence.Reaches(AUTONOMY_CONFIDENCE);
      state := state.(autonomyAllowed := Some(autonomy));
      state := state.(requiresApproval := Some(!autonomy));
      state := state.(escalated := Some(false));
      state := state.(decision := Some(Recommend));
    }

    method RecommendationAgent(t: Turn) returns (ok: bool)
      requires Valid()
      modifies this, llm, budget
      ensures Valid() && Step(Now(), if ok then Some(state) else None) == old(Recommendation(Now(), state, t))
    {
      hide Ask, Replay, Spent;
      budget.ChargeIteration();
      var body := AskModel(t);
      if body == None || body.value.Unreadable? {
        return false;
      }
      var answered := if body.value.Fields? then body.value.plan else None;
      state := state.(plan := Some(answered.GetOr([])));
      return true;
    }
  }

  /** graph.invoke for one incident: the final state, or None for an exception. */
  method RunGraph(limits: Limits, llm: CircuitBreaker, rag: CircuitBreaker, script: Script)
      returns (final: Option<IncidentState>, ghost shared: Shared)
    requires llm != rag && llm.Valid() && rag.Valid()
    requires llm.threshold == rag.threshold == FAILURE_THRESHOLD && llm.cooldown == rag.cooldown == COOLDOWN
    modifies llm, rag
    ensures llm.Valid() && rag.Valid()
    ensures shared.llm == Replay(FAILURE_THRESHOLD, COOLDOWN, llm.history)
    ensures shared.rag == Replay(FAILURE_THRESHOLD, COOLDOWN, rag.history)
    ensures Step(shared, final) == Invoke(limits, old(Replay(FAILURE_THRESHOLD, COOLDOWN, llm.history)),
                                          old(Replay(FAILURE_THRESHOLD, COOLDOWN, rag.history)), script)
  {
    hide Triage, Investigate, Gate, Recommendation, Replay, Spent;
    var run := new AgentRun(limits, llm, rag, script.start);
    var ok := run.TriageAgent(script.triage);
    if ok {
      ok := run.InvestigationAgent(script.lookup, script.investigation);
    } else {
      return None, run.Now();
    }
    if !ok {
      return None, run.Now();
    }
    run.GateNode(script.gateAt);
    if run.state.decision == Some(Escalate) {
      return Some(run.state), run.Now();
    }
    ok := run.RecommendationAgent(script.recommendation);
    if !ok {
      return None, run.Now();
    }
    run.state := run.state.(decision := Some(PlanReady));
    return Some(run.state), run.Now();
  }
}
