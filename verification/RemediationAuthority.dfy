/**
  Authorization on the action path.  The executor verifies the signature of a message's record, not
  that the record is a decision, nor that it is about the plan and the incident that the message
  names, nor its verdict (src/aegis_services/action_executor/worker.py:49-70): exactly what it takes
  for a call to be authorized, when anyone may put messages on the topic.
*/
module RemediationAuthority {
  import opened Options
  import opened Remediation
  import opened RemediationRuns
  import opened RemediationSafety

  ghost predicate IsApproval(e: Event, incident: IncidentId, plan: PlanId, token: int) {
    e.Decided? && e.record == Record(plan, incident, Approve, e.record.approver, Some(token))
  }

  /** An approving decision for the plan, carrying the incident and the token, has been committed. */
  ghost predicate Authorized(log: seq<Event>, incident: IncidentId, plan: PlanId, token: int) {
    exists e :: e in log && IsApproval(e, incident, plan, token)
  }

  ghost predicate ApprovedPlan(log: seq<Event>, p: PlanId) {
    exists e :: e in log && e.Decided? && e.record.plan == p && e.record.verdict == Approve
  }

  lemma AuthorizedLater(log: seq<Event>, more: seq<Event>, incident: IncidentId, plan: PlanId, token: int)
    requires log <= more && Authorized(log, incident, plan, token)
    ensures Authorized(more, incident, plan, token)
  {
    var e :| e in log && IsApproval(e, incident, plan, token);
    var i :| 0 <= i < |log| && log[i] == e;
    assert more[i] == e;
  }

  lemma ApprovedLater(log: seq<Event>, more: seq<Event>, p: PlanId)
    requires log <= more && ApprovedPlan(log, p)
    ensures ApprovedPlan(more, p)
  {
    var e :| e in log && e.Decided? && e.record.plan == p && e.record.verdict == Approve;
    var i :| 0 <= i < |log| && log[i] == e;
    assert more[i] == e;
  }

  lemma AuthorizedIsApproved(log: seq<Event>, inc: IncidentId, plan: PlanId, token: int)
    requires Authorized(log, inc, plan, token)
    ensures ApprovedPlan(log, plan)
  {
    var e :| e in log && IsApproval(e, inc, plan, token);
    assert e.record.plan == plan && e.record.verdict == Approve;
  }

  // ----- One message -----

  /** The message's own record is a committed approval of the plan, for the incident, under the token. */
  ghost predicate ApprovedBy(log: seq<Event>, m: Message, token: int) {
    m.claim.Approval? && Decided(m.claim.record) in log && IsApproval(Decided(m.claim.record), m.incident, m.plan, token)
  }

  /**
    In every reachable state, a message that passes the executor's checks carries the record of a
    decision that was taken or of a capability that was minted; it approves the plan, for the incident
    and under its current token, exactly if the message matches it.
  */
  lemma {:induction false} AcceptedRecordApprovesIff(steps: seq<Step>, m: Message)
    requires m in Run(steps).topic && Accepts(Run(steps), m)
    ensures var w := Run(steps);
      && (if m.claim.Approval? then Decided(m.claim.record) in w.log else m.claim in w.minted)
      && (ApprovedBy(w.log, m, w.incidents[m.incident].GetOr(0)) <==> Matches(m))
  {
    hide Run;
    RunKeeps(steps);
    if m.claim.Approval? {
      assert DecisionKnown(Run(steps), m.claim.record);
    }
  }

  /** A recorded token passes for the one an incident has now: the same and not zero, or -2 for none. */
  predicate SameToken(recorded: Option<int>, current: Option<int>) {
    if current == None || current == Some(0) then recorded == Some(-2) else recorded == current
  }

  /**
    Which messages a signed decision can start a plan with, in every reachable state: the executor
    accepts it for any plan whose row exists and any incident that has the decided incident's token; for
    its own plan, exactly if the row still exists and the token is neither null nor zero.
  */
  lemma {:induction false} DecisionIsAcceptedIff(steps: seq<Step>, record: Record, incident: IncidentId, plan: PlanId)
    requires Decided(record) in Run(steps).log
    ensures var w := Run(steps);
      && (Accepts(w, Message(incident, plan, Approval(record), Signed(Approval(record)))) <==>
            plan in w.status && incident in w.incidents && SameToken(record.token, w.incidents[incident]))
      && (Accepts(w, MessageOf(record)) <==> record.plan in w.status && record.token !in {None, Some(0)})
  {
    hide Run;
    RunKeeps(steps);
    assert DecisionKnown(Run(steps), record);
  }

  // ----- Whole runs -----

  /** The message is on the topic with a valid signature only if it matches its record. */
  predicate Admissible(w: World, m: Message) {
    m in w.topic && VerifyApproval(m.claim, m.signature) ==> Matches(m)
  }

  /** Whatever is delivered with a valid signature matches its record; the rest may be anything. */
  ghost predicate OnlyMatching(steps: seq<Step>) {
    forall i :: 0 <= i < |steps| && steps[i].Deliver? ==> Admissible(Run(steps[..i]), steps[i].message)
  }

  ghost predicate HandlersAuthorized(w: World) {
    forall inc :: inc in w.handlers ==>
      Authorized(w.log, inc, w.handlers[inc].job.plan, w.handlers[inc].job.token)
  }

  ghost predicate CallAuthorized(before: seq<Event>, e: Event) {
    e.Forward? || e.Compensate? ==> Authorized(before, e.key.incident, e.key.plan, e.key.token)
  }

  ghost predicate CallsAuthorized(log: seq<Event>) {
    forall k :: 0 <= k < |log| ==> CallAuthorized(log[..k], log[k])
  }

  /** Executing and executed plans have been approved. */
  ghost predicate StatusApproved(w: World) {
    forall p :: p in w.status && w.status[p] in {Executing, Executed} ==> ApprovedPlan(w.log, p)
  }

  /** Capabilities are only signed for approved plans. */
  ghost predicate CapabilitiesAuthorized(w: World) {
    forall c :: c in w.minted ==> c.Capability? && Authorized(w.log, c.incident, c.plan, c.token)
  }

  ghost predicate Authority(w: World) {
    HandlersAuthorized(w) && CallsAuthorized(w.log) && StatusApproved(w) && CapabilitiesAuthorized(w)
  }

  /** Handlers keep their jobs; a new call is of some handler's job, and so is a plan that begins to execute. */
  ghost predicate Tame(w: World, w': World) {
    && w.log <= w'.log && |w'.log| <= |w.log| + 1
    && (forall i :: i in w'.handlers ==> i in w.handlers && w'.handlers[i].job == w.handlers[i].job)
    && (|w'.log| > |w.log| ==> CallOf(w, w'.log[|w.log|]))
    && (forall p :: p in w'.status && w'.status[p] in {Executing, Executed} ==>
          || (p in w.status && w.status[p] in {Executing, Executed})
          || exists i :: i in w.handlers && w.handlers[i].job.plan == p)
    && (forall c :: c in w'.minted && c !in w.minted ==> CapabilityOf(w, c))
  }

  ghost predicate CapabilityOf(w: World, c: Claim) {
    && c.Capability? && c.incident in w.handlers
    && c.plan == w.handlers[c.incident].job.plan && c.token == w.handlers[c.incident].job.token
  }

  ghost predicate CallOf(w: World, e: Event) {
    e.Forward? || e.Compensate? ==>
      e.key.incident in w.handlers && e.key == w.handlers[e.key.incident].job.KeyOf(e.key.ordinal)
  }

  /** Every handler works for the incident it is filed under. */
  ghost predicate JobsAtHome(w: World) {
    forall i :: i in w.handlers ==> w.handlers[i].job.incident == i
  }

  lemma InvMeansAtHome(w: World)
    requires Inv(w)
    ensures JobsAtHome(w)
  {
    forall i | i in w.handlers
      ensures w.handlers[i].job.incident == i
    {
      assert HandlerSound(w, i, w.handlers[i]);
    }
  }

  lemma ProposalIsTame(w: World, plan: PlanId, incident: IncidentId, steps: seq<PlanStep>)
    ensures Tame(w, Proposing(w, plan, incident, steps))
  {
  }

  lemma DecisionIsTame(w: World, plan: PlanId, verdict: Verdict, approver: string, late: bool)
    ensures Tame(w, Deciding(w, plan, verdict, approver, late))
  {
  }

  lemma MintingIsTame(w: World, inc: IncidentId, namespace: string)
    requires JobsAtHome(w)
    ensures Tame(w, Minting(w, inc, namespace))
  {
  }

  lemma CheckIsTame(w: World, inc: IncidentId)
    ensures Tame(w, Checking(w, inc))
  {
    hide Runnable, HasSuccess, CallOf;
    if inc in w.handlers && w.handlers[inc].Walking? && w.handlers[inc].i >= |w.handlers[inc].job.steps| {
      ResolutionIsNoCall(w, Resolve(w.handlers[inc].job.incident, w.handlers[inc].job.plan));
    }
  }

  lemma ResolutionIsNoCall(w: World, e: Event)
    requires e.Resolve?
    ensures CallOf(w, e)
  {
  }

  lemma TripIsTame(w: World, inc: IncidentId)
    ensures Tame(w, Tripping(w, inc))
  {
  }

  lemma CallIsTame(w: World, inc: IncidentId, ok: bool)
    requires JobsAtHome(w)
    ensures Tame(w, Applying(w, inc, ok))
  {
  }

  lemma UndoIsTame(w: World, inc: IncidentId, ok: bool)
    requires JobsAtHome(w)
    ensures Tame(w, UndoOne(w, inc, ok))
  {
    hide RollbackOf;
  }

  lemma RowIsTame(w: World, inc: IncidentId, raises: bool)
    ensures Tame(w, Writing(w, inc, raises)) && Tame(w, AuditingUndo(w, inc))
  {
    hide HasRow;
  }

  lemma NothingNewIsTame(w: World, w': World)
    requires w'.log == w.log && w'.minted == w.minted && w'.status == w.status
    requires forall i :: i in w'.handlers ==> i in w.handlers && w'.handlers[i] == w.handlers[i]
    ensures Tame(w, w')
  {
  }

  lemma NextIsTame(w: World, s: Step)
    requires JobsAtHome(w) && !s.Deliver?
    ensures Tame(w, Next(w, s))
  {
    hide Tame;
    hide JobsAtHome, Proposing, Deciding, Minting, Checking, Tripping, Applying, Writing, UndoOne, AuditingUndo;
    match s
    case OpenIncident(_, _) => NothingNewIsTame(w, Next(w, s));
    case Propose(plan, incident, steps) => ProposalIsTame(w, plan, incident, steps);
    case Decide(plan, verdict, approver, late) => DecisionIsTame(w, plan, verdict, approver, late);
    case Publish(_) => NothingNewIsTame(w, Next(w, s));
    case Inject(_) => NothingNewIsTame(w, Next(w, s));
    case Mint(inc, namespace) => MintingIsTame(w, inc, namespace);
    case Check(inc) => CheckIsTame(w, inc);
    case Trip(inc) => TripIsTame(w, inc);
    case Apply(inc, ok) => CallIsTame(w, inc, ok);
    case Write(inc, raises) => RowIsTame(w, inc, raises);
    case Undo(inc, ok) => UndoIsTame(w, inc, ok);
    case AuditUndo(inc) => RowIsTame(w, inc, false);
    case Crash(_) => NothingNewIsTame(w, Next(w, s));
  }

  lemma CallsGrow(log: seq<Event>, e: Event)
    requires CallsAuthorized(log) && CallAuthorized(log, e)
    ensures CallsAuthorized(log + [e])
  {
    forall k | 0 <= k < |log + [e]|
      ensures CallAuthorized((log + [e])[..k], (log + [e])[k])
    {
      assert (log + [e])[..k] == log[..k];
      if k < |log| {
        assert CallAuthorized(log[..k], log[k]);
      } else {
        assert log[..k] == log;
      }
    }
  }

  lemma TameKeeps(w: World, w': World)
    requires Authority(w) && Tame(w, w')
    ensures Authority(w')
  {
    hide Authorized, ApprovedPlan;
    forall inc | inc in w'.handlers
      ensures Authorized(w'.log, inc, w'.handlers[inc].job.plan, w'.handlers[inc].job.token)
    {
      AuthorizedLater(w.log, w'.log, inc, w.handlers[inc].job.plan, w.handlers[inc].job.token);
    }
    if |w'.log| > |w.log| {
      assert w'.log == w.log + [w'.log[|w.log|]];
      CallsGrow(w.log, w'.log[|w.log|]);
    } else {
      assert w'.log == w.log;
    }
    forall p | p in w'.status && w'.status[p] in {Executing, Executed}
      ensures ApprovedPlan(w'.log, p)
    {
      if !(p in w.status && w.status[p] in {Executing, Executed}) {
        var i :| i in w.handlers && w.handlers[i].job.plan == p;
        AuthorizedIsApproved(w.log, i, p, w.handlers[i].job.token);
      }
      ApprovedLater(w.log, w'.log, p);
    }
    forall c | c in w'.minted
      ensures c.Capability? && Authorized(w'.log, c.incident, c.plan, c.token)
    {
      assert c !in w.minted ==> CapabilityOf(w, c);
      AuthorizedLater(w.log, w'.log, c.incident, c.plan, c.token);
    }
  }

  lemma DeliveryKeeps(steps: seq<Step>, m: Message, catalog: Catalog)
    requires Authority(Run(steps)) && Admissible(Run(steps), m)
    ensures Authority(Delivering(Run(steps), m, catalog))
  {
    hide Run, Authorized, ApprovedPlan, CallsAuthorized;
    var w := Run(steps);
    if m in w.topic && m.incident !in w.handlers && Accepts(w, m) {
      var token := w.incidents[m.incident].GetOr(0);
      AcceptedRecordApprovesIff(steps, m);
      assert Authorized(w.log, m.incident, m.plan, token) by {
        ApprovalAuthorizes(w.log, m.claim.record, m.incident, m.plan, token);
      }
      AuthorizedIsApproved(w.log, m.incident, m.plan, token);
    }
  }

  lemma ApprovalAuthorizes(log: seq<Event>, record: Record, incident: IncidentId, plan: PlanId, token: int)
    requires Decided(record) in log && IsApproval(Decided(record), incident, plan, token)
    ensures Authorized(log, incident, plan, token)
  {
  }

  lemma OnlyMatchingPrefix(steps: seq<Step>, n: nat)
    requires OnlyMatching(steps) && n <= |steps|
    ensures OnlyMatching(steps[..n])
  {
    hide Admissible;
    forall i | 0 <= i < n && steps[..n][i].Deliver?
      ensures Admissible(Run(steps[..n][..i]), steps[..n][i].message)
    {
      assert steps[..n][..i] == steps[..i];
    }
  }

  lemma {:induction false} RunKeepsAuthority(steps: seq<Step>)
    requires OnlyMatching(steps)
    ensures Authority(Run(steps))
  {
    hide Authority, Next, Tame, Inv, JobsAtHome, Admissible;
    if steps == [] {
      InitiallyAuthorized();
    } else {
      var earlier, s := steps[..|steps| - 1], steps[|steps| - 1];
      OnlyMatchingPrefix(steps, |steps| - 1);
      RunKeepsAuthority(earlier);
      if s.Deliver? {
        assert Admissible(Run(earlier), s.message);
        DeliveryKeeps(earlier, s.message, s.catalog);
        NextDelivers(Run(earlier), s.message, s.catalog);
      } else {
        RunKeeps(earlier);
        InvMeansAtHome(Run(earlier));
        NextIsTame(Run(earlier), s);
        TameKeeps(Run(earlier), Next(Run(earlier), s));
      }
    }
  }

  lemma NextDelivers(w: World, m: Message, catalog: Catalog)
    ensures Next(w, Deliver(m, catalog)) == Delivering(w, m, catalog)
  {
  }

  lemma InitiallyAuthorized()
    ensures Authority(INITIAL)
  {
  }

  /** An authorization carries the token that the incident has, and the plan belongs to the incident. */
  lemma TokenIsIncidents(w: World, incident: IncidentId, plan: PlanId, token: int)
    requires DecisionsKnown(w) && Authorized(w.log, incident, plan, token)
    ensures incident in w.incidents && w.incidents[incident] == Some(token)
    ensures plan in w.plans && w.plans[plan].incident == incident
  {
    var e :| e in w.log && IsApproval(e, incident, plan, token);
    assert DecisionKnown(w, e.record);
  }

  /**
    If what is delivered with a valid signature matches its record, every runtime call, forward or
    compensating, comes after a committed approval of its plan that carries the incident's own
    fencing token, whatever else is put on the topic.
  */
  lemma {:induction false} CallsAreAuthorized(steps: seq<Step>, k: nat)
    requires OnlyMatching(steps)
    requires k < |Run(steps).log| && (Run(steps).log[k].Forward? || Run(steps).log[k].Compensate?)
    ensures var w := Run(steps);
      var key := w.log[k].key;
      && (exists j :: 0 <= j < k && IsApproval(w.log[j], key.incident, key.plan, key.token))
      && key.incident in w.incidents && w.incidents[key.incident] == Some(key.token)
      && key.plan in w.plans && w.plans[key.plan].incident == key.incident
  {
    hide Run, PlansKnown, MessagesGenuine, LedgerSound, StatusSound, LogJustified, StatusApproved, HandlersAuthorized;
    RunKeeps(steps);
    RunKeepsAuthority(steps);
    var w := Run(steps);
    var key := w.log[k].key;
    assert CallAuthorized(w.log[..k], w.log[k]);
    var e :| e in w.log[..k] && IsApproval(e, key.incident, key.plan, key.token);
    var j :| 0 <= j < k && w.log[..k][j] == e;
    assert w.log[j] == e;
    AuthorizedLater(w.log[..k], w.log, key.incident, key.plan, key.token);
    TokenIsIncidents(w, key.incident, key.plan, key.token);
  }

  /** Under the same condition a plan that is executing or executed has been approved. */
  lemma {:induction false} ExecutingMeansApproved(steps: seq<Step>, p: PlanId)
    requires OnlyMatching(steps)
    requires p in Run(steps).status && Run(steps).status[p] in {Executing, Executed}
    ensures ApprovedPlan(Run(steps).log, p)
  {
    RunKeepsAuthority(steps);
  }

  /** ... and so has the plan of every capability that was signed. */
  lemma CapabilitiesMeanApproved(steps: seq<Step>, c: Claim)
    requires OnlyMatching(steps) && c in Run(steps).minted
    ensures c.Capability? && Authorized(Run(steps).log, c.incident, c.plan, c.token)
  {
    RunKeepsAuthority(steps);
  }

  // ----- The producer alone -----

  /** The policy decision point only publishes messages that match: without others the condition holds. */
  lemma {:induction false} ProducerMatches(steps: seq<Step>)
    requires forall i :: 0 <= i < |steps| ==> !steps[i].Inject?
    ensures forall m :: m in Run(steps).unsent || m in Run(steps).topic ==> Matches(m)
    ensures OnlyMatching(steps)
  {
    hide Proposing, Delivering, Checking, Tripping, Applying, Writing, UndoOne, AuditingUndo, Accepts;
    if steps == [] {
    } else {
      var earlier, s := steps[..|steps| - 1], steps[|steps| - 1];
      ProducerMatches(earlier);
      MessagesComeFromDecisions(Run(earlier), s);
      forall i | 0 <= i < |steps| && steps[i].Deliver?
        ensures Admissible(Run(steps[..i]), steps[i].message)
      {
        if i < |earlier| {
          assert steps[..i] == earlier[..i];
          assert Admissible(Run(earlier[..i]), earlier[i].message);
        }
      }
    }
  }

  lemma MessagesComeFromDecisions(w: World, s: Step)
    requires !s.Inject?
    ensures forall m :: m in Next(w, s).unsent || m in Next(w, s).topic ==>
      m in w.unsent || m in w.topic || Matches(m)
  {
    hide Accepts, Runnable, HasRow, HasSuccess, RollbackOf;
  }

  // ----- What happens otherwise -----

  /**
    A call at position k carries out the step for a plan on which nothing was ever decided; the record
    of another plan that was decided before, and replaced by this one, is what started it.
  */
  ghost predicate CallsUndecidedPlan(w: World, k: nat, step: PlanStep, record: Record) {
    && k < |w.log| && w.log[k].Forward? && w.log[k].action == step.action && w.log[k].params == step.params
    && (forall i :: 0 <= i < |w.log| && w.log[i].Decided? ==> w.log[i].record.plan != w.log[k].key.plan)
    && Decided(record) in w.log[..k] && record.incident == w.log[k].key.incident
    && record.plan != w.log[k].key.plan && record.plan !in w.status
    && Message(record.incident, w.log[k].key.plan, Approval(record), SignApproval(record)) in w.topic
  }

  /**
    The condition cannot be dropped: for every runnable step there is a run that carries it out for a
    plan on which nothing was ever decided, by the signed record of a plan it has replaced.
  */
  lemma ReplayedRecordRunsUndecidedPlan(step: PlanStep, catalog: Catalog)
    requires Runnable(catalog, step)
    ensures exists steps: seq<Step>, k: nat, record: Record :: CallsUndecidedPlan(Run(steps), k, step, record)
  {
    hide Run, RunOf, Next, Runnable;
    var record := Record(7, 1, Approve, "ops", Some(5));
    var sent, replayed := MessageOf(record), Message(1, 8, Approval(record), SignApproval(record));
    var approving := [OpenIncident(1, Some(5)), Propose(7, 1, [step]), Decide(7, Approve, "ops", false), Publish(sent)];
    var replaying := [Propose(8, 1, [step]), Inject(replayed), Deliver(replayed, catalog), Check(1)];
    var calling := [Apply(1, true)];
    var w := RunOf(approving, INITIAL);
    ApprovedWorld([step]);
    var w' := RunOf(replaying, w);
    ReplayedWorld(w, step, catalog);
    CallWorld(w', step, catalog);
    RunOfAppends(approving, replaying, INITIAL);
    RunOfAppends(approving + replaying, calling, INITIAL);
    RunIsRunOf(approving + replaying + calling);
    var last := Run(approving + replaying + calling);
    assert last.log[..1] == [Decided(record)];
    assert CallsUndecidedPlan(last, 1, step, record);
  }

  lemma ReplayedWorld(w: World, step: PlanStep, catalog: Catalog)
    requires Runnable(catalog, step)
    requires w.incidents == map[1 := Some(5)] && w.plans == map[7 := Plan(1, [step])] && w.status.Keys == {7}
    requires w.handlers == map[] && w.ledger == [] && w.log == [Decided(Record(7, 1, Approve, "ops", Some(5)))]
    ensures var record := Record(7, 1, Approve, "ops", Some(5));
      var m := Message(1, 8, Approval(record), SignApproval(record));
      var w' := RunOf([Propose(8, 1, [step]), Inject(m), Deliver(m, catalog), Check(1)], w);
      && w'.log == w.log && w'.handlers == map[1 := Cleared(Job(1, 8, 5, [step], catalog), 0)]
      && m in w'.topic && 7 !in w'.status
  {
    hide Next, Runnable, Accepts;
    var record := Record(7, 1, Approve, "ops", Some(5));
    var m := Message(1, 8, Approval(record), SignApproval(record));
    RunOfFour(Propose(8, 1, [step]), Inject(m), Deliver(m, catalog), Check(1), w);
    var w1 := Next(w, Propose(8, 1, [step]));
    ReplacedAndReplayed(w, step, m);
    var w2 := Next(w1, Inject(m));
    var job := Job(1, 8, 5, [step], catalog);
    DeliverAlone(w2, m, job, catalog);
    CheckAlone(Next(w2, Deliver(m, catalog)), 1, job);
  }

  lemma ReplacedAndReplayed(w: World, step: PlanStep, m: Message)
    requires w.incidents == map[1 := Some(5)] && w.plans == map[7 := Plan(1, [step])] && w.status.Keys == {7}
    requires w.handlers == map[] && w.ledger == [] && w.log == [Decided(Record(7, 1, Approve, "ops", Some(5)))]
    requires m == Message(1, 8, Approval(w.log[0].record), SignApproval(w.log[0].record))
    ensures var w' := Next(Next(w, Propose(8, 1, [step])), Inject(m));
      && m in w'.topic && w'.log == w.log && w'.handlers == map[] && w'.ledger == []
      && w'.incidents == w.incidents && 8 in w'.plans && w'.plans[8].steps == [step] && Accepts(w', m)
      && 7 !in w'.status
  {
    var w1 := Next(w, Propose(8, 1, [step]));
    assert 8 in w1.status && w1.plans[8] == Plan(1, [step]) && w1.handlers == map[] && 7 !in w1.status;
  }

  lemma CallWorld(w: World, step: PlanStep, catalog: Catalog)
    requires w.handlers == map[1 := Cleared(Job(1, 8, 5, [step], catalog), 0)]
    ensures var w' := RunOf([Apply(1, true)], w);
      && w'.log == w.log + [Forward(Key(1, 8, 0, 5), step.action, step.params, true)]
      && w'.topic == w.topic && w'.status == w.status
  {
    assert [Apply(1, true)][..0] == [];
    assert RunOf([], w) == w;
  }

  /**
    Nor can the kind of the record be dropped from it: a capability passes the same verification, and
    the token check, so it is accepted for any plan of any incident with its token.
  */
  lemma CapabilityIsAccepted(w: World, c: Claim, incident: IncidentId, plan: PlanId)
    requires c.Capability? && plan in w.status && plan in w.plans
    requires incident in w.incidents && w.incidents[incident] == Some(c.token) && c.token != 0
    ensures var m := Message(incident, plan, c, Signed(c));
      Accepts(w, m) && !Matches(m) && (c in w.minted ==> m in Injecting(w, m).topic)
  {
  }
}
