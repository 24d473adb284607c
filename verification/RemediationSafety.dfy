/**
  Safety of the action path in every reachable state, under any interleaving, duplication and crash
  and whatever is put on the topic.  Authorization is the one part that needs more of the messages
  than the executor checks; it follows in RemediationAuthority.
*/
module RemediationSafety {
  import opened Options
  import opened Remediation

  // ----- What the log says -----

  ghost predicate IsSuccess(e: Event, plan: PlanId, ordinal: nat) {
    e.Forward? && e.ok && e.key.plan == plan && e.key.ordinal == ordinal
  }

  /** Step `ordinal` of the plan has been applied with success. */
  ghost predicate Done(log: seq<Event>, plan: PlanId, ordinal: nat) {
    exists e :: e in log && IsSuccess(e, plan, ordinal)
  }

  ghost predicate AllDone(log: seq<Event>, plan: PlanId, n: nat) {
    forall o: nat :: o < n ==> Done(log, plan, o)
  }

  lemma DoneLater(log: seq<Event>, more: seq<Event>, plan: PlanId, ordinal: nat)
    requires log <= more && Done(log, plan, ordinal)
    ensures Done(more, plan, ordinal)
  {
    var e :| e in log && IsSuccess(e, plan, ordinal);
    var i :| 0 <= i < |log| && log[i] == e;
    assert more[i] == e;
  }

  lemma AllDoneLater(log: seq<Event>, more: seq<Event>, plan: PlanId, n: nat)
    requires log <= more && AllDone(log, plan, n)
    ensures AllDone(more, plan, n)
  {
    forall o: nat | o < n
      ensures Done(more, plan, o)
    {
      DoneLater(log, more, plan, o);
    }
  }

  // ----- The invariant -----

  ghost predicate PlansKnown(w: World) {
    && w.status.Keys <= w.plans.Keys
    && forall p :: p in w.plans ==> w.plans[p].incident in w.incidents
  }

  /** Every signature on its way has been made. */
  ghost predicate MessagesGenuine(w: World) {
    forall m :: m in w.unsent || m in w.topic ==> (m.signature.Signed? ==> Made(w, m.signature.claim))
  }

  ghost predicate DecisionKnown(w: World, r: Record) {
    && r.plan in w.plans && w.plans[r.plan].incident == r.incident
    && r.incident in w.incidents && r.token == w.incidents[r.incident]
    && (r.plan in w.status ==> w.status[r.plan] != Proposed)
  }

  ghost predicate DecisionsKnown(w: World) {
    forall e :: e in w.log && e.Decided? ==> DecisionKnown(w, e.record)
  }

  ghost predicate JobSound(w: World, inc: IncidentId, job: Job) {
    && job.incident == inc
    && job.plan in w.plans && w.plans[job.plan].steps == job.steps
  }

  /** The steps before i are done, each with its ledger row. */
  ghost predicate Progress(w: World, job: Job, i: nat) {
    && i <= |job.steps|
    && AllDone(w.log, job.plan, i)
    && forall o: nat :: o < i ==> HasRow(w.ledger, job.KeyOf(o))
  }

  ghost predicate HandlerSound(w: World, inc: IncidentId, h: Handler) {
    && JobSound(w, inc, h.job)
    && match h
       case Walking(job, i) => Progress(w, job, i)
       case Cleared(job, i) => Progress(w, job, i) && i < |job.steps| && !HasSuccess(w.ledger, job.KeyOf(i))
       case Returned(job, i, ok) => Progress(w, job, i) && i < |job.steps| && (ok ==> Done(w.log, job.plan, i))
       case Undoing(job, k) => Progress(w, job, k)
       case Undone(job, k, ok) => Progress(w, job, k) && k > 0
  }

  ghost predicate HandlersSound(w: World) {
    forall inc :: inc in w.handlers ==> HandlerSound(w, inc, w.handlers[inc])
  }

  /** Keys are unique, successes really happened, and the rows of a plan cover an initial segment of its steps. */
  ghost predicate LedgerSound(ledger: seq<LedgerRow>, log: seq<Event>) {
    && (forall i, j :: 0 <= i < j < |ledger| ==> ledger[i].key != ledger[j].key)
    && (forall r :: r in ledger && r.success ==> Done(log, r.key.plan, r.key.ordinal))
    && (forall r, o: nat :: r in ledger && o < r.key.ordinal ==> HasRow(ledger, r.key.(ordinal := o)))
  }

  function RowOf(note: AuditNote): seq<LedgerRow> {
    match note
    case ActionApplied(key) => [LedgerRow(key, true)]
    case ActionFailed(key) => [LedgerRow(key, false)]
    case _ => []
  }

  /** The audit records about applied and failed actions, as ledger rows. */
  function ActionRows(audit: seq<AuditNote>): seq<LedgerRow> {
    if audit == [] then [] else ActionRows(audit[..|audit| - 1]) + RowOf(audit[|audit| - 1])
  }

  ghost predicate AuditMatches(w: World) {
    ActionRows(w.audit) == w.ledger
  }

  /** Event k was justified by what the log already held. */
  ghost predicate Justified(w: World, before: seq<Event>, e: Event) {
    match e
    case Decided(_) => true
    case Forward(_, _, _, _) => true
    case Compensate(key, _, _, _) => Done(before, key.plan, key.ordinal)
    case Resolve(_, plan) => plan in w.plans && AllDone(before, plan, |w.plans[plan].steps|)
  }

  ghost predicate LogJustified(w: World) {
    forall k :: 0 <= k < |w.log| ==> Justified(w, w.log[..k], w.log[k])
  }

  ghost predicate StatusSound(w: World) {
    forall p :: p in w.status && p in w.plans && w.status[p] == Executed ==> AllDone(w.log, p, |w.plans[p].steps|)
  }

  ghost predicate Inv(w: World) {
    && PlansKnown(w) && MessagesGenuine(w) && DecisionsKnown(w) && HandlersSound(w)
    && LedgerSound(w.ledger, w.log) && AuditMatches(w) && LogJustified(w) && StatusSound(w)
  }

  // ----- Steps only add -----

  /** w' has everything that w has; rows added to the ledger belong to incident `actor`. */
  ghost predicate Extends(w: World, w': World, actor: IncidentId) {
    && w.log <= w'.log
    && (forall p :: p in w.plans ==> p in w'.plans && w'.plans[p] == w.plans[p])
    && (forall i :: i in w.incidents ==> i in w'.incidents && w'.incidents[i] == w.incidents[i])
    && w.minted <= w'.minted
    && (forall r :: r in w.ledger ==> r in w'.ledger)
    && (forall r :: r in w'.ledger ==> r in w.ledger || r.key.incident == actor)
  }

  lemma HasRowLater(w: World, w': World, actor: IncidentId, key: Key)
    requires Extends(w, w', actor) && HasRow(w.ledger, key)
    ensures HasRow(w'.ledger, key)
  {
    var r :| r in w.ledger && r.key == key;
    assert r in w'.ledger;
  }

  lemma ProgressLater(w: World, w': World, actor: IncidentId, job: Job, i: nat)
    requires Extends(w, w', actor) && Progress(w, job, i)
    ensures Progress(w', job, i)
  {
    AllDoneLater(w.log, w'.log, job.plan, i);
    forall o: nat | o < i
      ensures HasRow(w'.ledger, job.KeyOf(o))
    {
      HasRowLater(w, w', actor, job.KeyOf(o));
    }
  }

  lemma JobSoundLater(w: World, w': World, actor: IncidentId, inc: IncidentId, job: Job)
    requires Extends(w, w', actor) && JobSound(w, inc, job)
    ensures JobSound(w', inc, job)
  {
  }

  lemma HandlerLater(w: World, w': World, actor: IncidentId, inc: IncidentId, h: Handler)
    requires Extends(w, w', actor) && HandlerSound(w, inc, h)
    requires inc != actor || w'.ledger == w.ledger
    ensures HandlerSound(w', inc, h)
  {
    JobSoundLater(w, w', actor, inc, h.job);
    ProgressLater(w, w', actor, h.job, if h.Undoing? || h.Undone? then h.k else h.i);
    if h.Returned? && h.ok {
      DoneLater(w.log, w'.log, h.job.plan, h.i);
    }
  }

  /** All handlers but the acting incident's own carry on as they were. */
  lemma HandlersLater(w: World, w': World, actor: IncidentId)
    requires Extends(w, w', actor) && HandlersSound(w)
    requires forall i :: i in w'.handlers && i != actor ==> i in w.handlers && w'.handlers[i] == w.handlers[i]
    requires actor in w'.handlers ==> HandlerSound(w', actor, w'.handlers[actor])
    ensures HandlersSound(w')
  {
    forall i | i in w'.handlers
      ensures HandlerSound(w', i, w'.handlers[i])
    {
      if i != actor {
        HandlerLater(w, w', actor, i, w.handlers[i]);
      }
    }
  }

  lemma JustifiedLater(w: World, w': World, actor: IncidentId, before: seq<Event>, e: Event)
    requires Extends(w, w', actor) && Justified(w, before, e)
    ensures Justified(w', before, e)
  {
  }

  /** The log grows by at most one justified event. */
  lemma LogLater(w: World, w': World, actor: IncidentId)
    requires Extends(w, w', actor) && LogJustified(w)
    requires w'.log == w.log || (|w'.log| == |w.log| + 1 && Justified(w', w.log, w'.log[|w.log|]))
    ensures LogJustified(w')
  {
    forall k | 0 <= k < |w'.log|
      ensures Justified(w', w'.log[..k], w'.log[k])
    {
      assert w'.log[..|w.log|] == w.log;
      if k < |w.log| {
        assert w'.log[..k] == w.log[..k] && w'.log[k] == w.log[k];
        JustifiedLater(w, w', actor, w.log[..k], w.log[k]);
      }
    }
  }

  /** A log that grows by something other than a decision leaves the decisions as they were. */
  lemma DecisionsLater(w: World, w': World, actor: IncidentId)
    requires Extends(w, w', actor) && DecisionsKnown(w)
    requires w'.log == w.log || (|w'.log| == |w.log| + 1 && !w'.log[|w.log|].Decided?)
    requires forall p :: p in w'.status && w'.status[p] == Proposed ==>
      (p in w.status && w.status[p] == Proposed) || p !in w.plans
    ensures DecisionsKnown(w')
  {
    forall e | e in w'.log && e.Decided?
      ensures DecisionKnown(w', e.record)
    {
      assert e in w.log;
      assert DecisionKnown(w, e.record);
    }
  }

  lemma MessagesLater(w: World, w': World, actor: IncidentId)
    requires Extends(w, w', actor) && MessagesGenuine(w)
    requires w'.unsent + w'.topic <= w.unsent + w.topic
    ensures MessagesGenuine(w')
  {
    forall m | (m in w'.unsent || m in w'.topic) && m.signature.Signed?
      ensures Made(w', m.signature.claim)
    {
      assert m in w'.unsent + w'.topic;
      assert m in w.unsent || m in w.topic;
      MadeLater(w, w', m.signature.claim);
    }
  }

  lemma MadeLater(w: World, w': World, claim: Claim)
    requires w.log <= w'.log && w.minted <= w'.minted && Made(w, claim)
    ensures Made(w', claim)
  {
    if claim.Approval? {
      var i :| 0 <= i < |w.log| && w.log[i] == Decided(claim.record);
      assert w'.log[i] == Decided(claim.record);
    }
  }

  lemma StatusLater(w: World, w': World, actor: IncidentId)
    requires Extends(w, w', actor) && PlansKnown(w) && StatusSound(w)
    requires forall p :: p in w'.status && w'.status[p] == Executed ==>
      (p in w.status && w.status[p] == Executed)
      || (p in w'.plans && AllDone(w'.log, p, |w'.plans[p].steps|))
    ensures StatusSound(w')
  {
    forall p | p in w'.status && p in w'.plans && w'.status[p] == Executed
      ensures AllDone(w'.log, p, |w'.plans[p].steps|)
    {
      if p in w.status && w.status[p] == Executed {
        AllDoneLater(w.log, w'.log, p, |w.plans[p].steps|);
      }
    }
  }

  lemma LedgerLater(w: World, w': World, actor: IncidentId)
    requires Extends(w, w', actor) && LedgerSound(w.ledger, w.log) && w'.ledger == w.ledger
    ensures LedgerSound(w'.ledger, w'.log)
  {
    forall r | r in w'.ledger && r.success
      ensures Done(w'.log, r.key.plan, r.key.ordinal)
    {
      DoneLater(w.log, w'.log, r.key.plan, r.key.ordinal);
    }
  }

  lemma ActionRowsSnoc(audit: seq<AuditNote>, note: AuditNote)
    ensures ActionRows(audit + [note]) == ActionRows(audit) + RowOf(note)
  {
    assert (audit + [note])[..|audit|] == audit;
  }

  /** An event that is no decision is added to the log, or none; the tables' rules are kept by hand. */
  lemma QuietStep(w: World, w': World, actor: IncidentId)
    requires Inv(w) && Extends(w, w', actor)
    requires w'.incidents == w.incidents && w'.plans == w.plans
    requires w'.unsent == w.unsent && w'.topic == w.topic && w'.minted == w.minted
    requires w'.log == w.log
      || (|w'.log| == |w.log| + 1 && !w'.log[|w.log|].Decided? && Justified(w', w.log, w'.log[|w.log|]))
    requires w'.status.Keys <= w.status.Keys
    requires forall p :: p in w'.status && w'.status[p] == Proposed ==> w.status[p] == Proposed
    requires forall i :: i in w'.handlers && i != actor ==> i in w.handlers && w'.handlers[i] == w.handlers[i]
    requires actor in w'.handlers ==> HandlerSound(w', actor, w'.handlers[actor])
    ensures PlansKnown(w') && MessagesGenuine(w') && DecisionsKnown(w') && HandlersSound(w') && LogJustified(w')
  {
    MessagesLater(w, w', actor);
    DecisionsLater(w, w', actor);
    HandlersLater(w, w', actor);
    LogLater(w, w', actor);
  }

  // ----- Every step keeps the invariant -----

  /** Only handlers change: nothing is logged and no table is written. */
  lemma HandlerMoves(w: World, w': World, actor: IncidentId)
    requires Inv(w) && w' == w.(handlers := w'.handlers)
    requires forall i :: i in w'.handlers && i != actor ==> i in w.handlers && w'.handlers[i] == w.handlers[i]
    requires actor in w'.handlers ==> HandlerSound(w, actor, w'.handlers[actor])
    ensures Inv(w')
  {
    hide HandlerSound, Justified;
    if actor in w'.handlers {
      HandlerLater(w, w', actor, actor, w'.handlers[actor]);
    }
    QuietStep(w, w', actor);
    StatusLater(w, w', actor);
    LedgerLater(w, w', actor);
  }

  lemma OpenIncidentKeeps(w: World, incident: IncidentId, token: Option<int>)
    requires Inv(w)
    ensures Inv(Next(w, OpenIncident(incident, token)))
  {
    hide HandlerSound, MessagesGenuine, LedgerSound, LogJustified, DecisionsKnown;
    var w' := Next(w, OpenIncident(incident, token));
    assert Extends(w, w', incident);
    MessagesLater(w, w', incident);
    DecisionsLater(w, w', incident);
    forall i | i in w'.handlers
      ensures HandlerSound(w', i, w'.handlers[i])
    {
      HandlerLater(w, w', incident, i, w.handlers[i]);
    }
    LogLater(w, w', incident);
    StatusLater(w, w', incident);
    LedgerLater(w, w', incident);
  }

  lemma ProposingKeeps(w: World, plan: PlanId, incident: IncidentId, steps: seq<PlanStep>)
    requires Inv(w)
    ensures Inv(Proposing(w, plan, incident, steps))
  {
    hide AllDone, ActionRows;
    hide HandlerSound, MessagesGenuine, LedgerSound, LogJustified, DecisionsKnown;
    var w' := Proposing(w, plan, incident, steps);
    assert Extends(w, w', incident);
    MessagesLater(w, w', incident);
    DecisionsLater(w, w', incident);
    forall i | i in w'.handlers
      ensures HandlerSound(w', i, w'.handlers[i])
    {
      HandlerLater(w, w', incident, i, w.handlers[i]);
    }
    LogLater(w, w', incident);
    StatusLater(w, w', incident);
    LedgerLater(w, w', incident);
  }

  lemma PublishKeeps(w: World, m: Message)
    requires Inv(w)
    ensures Inv(Next(w, Publish(m)))
  {
    hide HandlerSound, MessagesGenuine, LedgerSound, LogJustified, DecisionsKnown;
    var w' := Next(w, Publish(m));
    MessagesLater(w, w', 0);
    forall i | i in w'.handlers
      ensures HandlerSound(w', i, w'.handlers[i])
    {
      HandlerLater(w, w', 0, i, w.handlers[i]);
    }
    DecisionsLater(w, w', 0);
    LogLater(w, w', 0);
    StatusLater(w, w', 0);
    LedgerLater(w, w', 0);
  }

  lemma InjectingKeeps(w: World, m: Message)
    requires Inv(w)
    ensures Inv(Injecting(w, m))
  {
    hide HandlerSound, LedgerSound, LogJustified, DecisionsKnown;
    var w' := Injecting(w, m);
    assert MessagesGenuine(w');
    forall i | i in w'.handlers
      ensures HandlerSound(w', i, w'.handlers[i])
    {
      HandlerLater(w, w', 0, i, w.handlers[i]);
    }
    DecisionsLater(w, w', 0);
    LogLater(w, w', 0);
    StatusLater(w, w', 0);
    LedgerLater(w, w', 0);
  }

  lemma MintingKeeps(w: World, inc: IncidentId, namespace: string)
    requires Inv(w)
    ensures Inv(Minting(w, inc, namespace))
  {
    hide HandlerSound, MessagesGenuine, LedgerSound, LogJustified, DecisionsKnown;
    var w' := Minting(w, inc, namespace);
    assert Extends(w, w', inc);
    MessagesLater(w, w', inc);
    forall i | i in w'.handlers
      ensures HandlerSound(w', i, w'.handlers[i])
    {
      HandlerLater(w, w', inc, i, w.handlers[i]);
    }
    DecisionsLater(w, w', inc);
    LogLater(w, w', inc);
    StatusLater(w, w', inc);
    LedgerLater(w, w', inc);
  }

  lemma DecidingKeeps(w: World, plan: PlanId, verdict: Verdict, approver: string, late: bool)
    requires Inv(w)
    ensures Inv(Deciding(w, plan, verdict, approver, late))
  {
    hide HandlerSound, ActionRows;
    var w' := Deciding(w, plan, verdict, approver, late);
    if w' != w {
      assert Extends(w, w', 0);
      var record := w'.log[|w.log|].record;
      assert w'.log[|w.log|] == Decided(record);
      DecisionIsNew(w, w', record);
      NewMessageGenuine(w, w', record);
      forall i | i in w'.handlers
        ensures HandlerSound(w', i, w'.handlers[i])
      {
        HandlerLater(w, w', 0, i, w.handlers[i]);
      }
      LogLater(w, w', 0);
      StatusLater(w, w', 0);
      LedgerLater(w, w', 0);
      ActionRowsSnoc(w.audit, w'.audit[|w.audit|]);
    }
  }

  lemma DecisionIsNew(w: World, w': World, record: Record)
    requires DecisionsKnown(w) && w'.log == w.log + [Decided(record)]
    requires w'.plans == w.plans && w'.incidents == w.incidents
    requires DecisionKnown(w', record)
    requires forall p :: p in w'.status && p != record.plan ==> p in w.status && w'.status[p] == w.status[p]
    ensures DecisionsKnown(w')
  {
    forall e | e in w'.log && e.Decided?
      ensures DecisionKnown(w', e.record)
    {
      if e in w.log {
        assert DecisionKnown(w, e.record);
      }
    }
  }

  lemma NewMessageGenuine(w: World, w': World, record: Record)
    requires MessagesGenuine(w) && w'.log == w.log + [Decided(record)] && w'.topic == w.topic
    requires w'.minted == w.minted
    requires w'.unsent == w.unsent || w'.unsent == w.unsent + {MessageOf(record)}
    ensures MessagesGenuine(w')
  {
    forall m | (m in w.unsent || m in w.topic) && m.signature.Signed?
      ensures Made(w', m.signature.claim)
    {
      MadeLater(w, w', m.signature.claim);
    }
  }

  lemma DeliveringKeeps(w: World, m: Message, catalog: Catalog)
    requires Inv(w)
    ensures Inv(Delivering(w, m, catalog))
  {
    hide MessagesGenuine, DecisionsKnown, LedgerSound, LogJustified, Done;
    var w' := Delivering(w, m, catalog);
    if w' != w {
      var inc, job := m.incident, JobOf(w, m, catalog);
      assert Extends(w, w', inc);
      JobSoundLater(w, w', inc, inc, job);
      assert HandlerSound(w', inc, w'.handlers[inc]);
      QuietStep(w, w', inc);
      StatusLater(w, w', inc);
      LedgerLater(w, w', inc);
    }
  }

  /** When a handler has walked past the last step, every step of its plan is done. */
  lemma WalkIsComplete(w: World, inc: IncidentId)
    requires HandlersSound(w) && inc in w.handlers && w.handlers[inc].Walking?
    requires w.handlers[inc].i >= |w.handlers[inc].job.steps|
    ensures var job := w.handlers[inc].job;
      && job.plan in w.plans && |w.plans[job.plan].steps| == |job.steps|
      && AllDone(w.log, job.plan, |job.steps|)
  {
    var job := w.handlers[inc].job;
    assert HandlerSound(w, inc, w.handlers[inc]);
  }

  /** The closing unit of work: the plan becomes executed once all its steps are done. */
  lemma ResolvingKeeps(w: World, inc: IncidentId)
    requires Inv(w) && inc in w.handlers && w.handlers[inc].Walking?
    requires w.handlers[inc].i >= |w.handlers[inc].job.steps|
    ensures Inv(Checking(w, inc))
  {
    hide HandlersSound, HandlerSound, MessagesGenuine, DecisionsKnown, LedgerSound, LogJustified, StatusSound,
      AllDone, ActionRows;
    var w', job := Checking(w, inc), w.handlers[inc].job;
    WalkIsComplete(w, inc);
    assert w'.log == w.log + [Resolve(job.incident, job.plan)];
    assert Extends(w, w', inc);
    QuietStep(w, w', inc);
    AllDoneLater(w.log, w'.log, job.plan, |job.steps|);
    StatusLater(w, w', inc);
    LedgerLater(w, w', inc);
    ActionRowsSnoc(w.audit, w'.audit[|w.audit|]);
  }

  lemma CheckingKeeps(w: World, inc: IncidentId)
    requires Inv(w)
    ensures Inv(Checking(w, inc))
  {
    hide Inv, Runnable;
    if inc in w.handlers && w.handlers[inc].Walking? {
      var Walking(job, i) := w.handlers[inc];
      if i >= |job.steps| {
        ResolvingKeeps(w, inc);
      } else {
        WalkingMoves(w, inc);
        HandlerMoves(w, Checking(w, inc), inc);
      }
    }
  }

  lemma WalkingMoves(w: World, inc: IncidentId)
    requires Inv(w) && inc in w.handlers && w.handlers[inc].Walking?
    requires w.handlers[inc].i < |w.handlers[inc].job.steps|
    ensures HandlerSound(w, inc, Checking(w, inc).handlers[inc])
  {
    hide Runnable;
    var Walking(job, i) := w.handlers[inc];
    assert HandlerSound(w, inc, w.handlers[inc]);
    if HasSuccess(w.ledger, job.KeyOf(i)) {
      assert Done(w.log, job.plan, i);
      assert HasRow(w.ledger, job.KeyOf(i));
    }
  }

  lemma TrippingKeeps(w: World, inc: IncidentId)
    requires Inv(w)
    ensures Inv(Tripping(w, inc))
  {
    if inc in w.handlers {
      assert HandlerSound(w, inc, w.handlers[inc]);
    }
    HandlerMoves(w, Tripping(w, inc), inc);
  }

  lemma ApplyingKeeps(w: World, inc: IncidentId, ok: bool)
    requires Inv(w)
    ensures Inv(Applying(w, inc, ok))
  {
    hide MessagesGenuine, DecisionsKnown, LedgerSound, LogJustified;
    var w' := Applying(w, inc, ok);
    if w' != w {
      var Cleared(job, i) := w.handlers[inc];
      assert HandlerSound(w, inc, w.handlers[inc]);
      assert Extends(w, w', inc);
      assert Justified(w', w.log, w'.log[|w.log|]);
      JobSoundLater(w, w', inc, inc, job);
      ProgressLater(w, w', inc, job, i);
      assert ok ==> IsSuccess(w'.log[|w.log|], job.plan, i);
      assert HandlerSound(w', inc, w'.handlers[inc]);
      QuietStep(w, w', inc);
      StatusLater(w, w', inc);
      LedgerLater(w, w', inc);
    }
  }

  lemma WritingKeeps(w: World, inc: IncidentId, raises: bool)
    requires Inv(w)
    ensures Inv(Writing(w, inc, raises))
  {
    hide MessagesGenuine, DecisionsKnown, LedgerSound, LogJustified, Done, AllDone, ActionRows;
    if inc in w.handlers && w.handlers[inc].Returned? {
      var Returned(job, i, ok) := w.handlers[inc];
      assert HandlerSound(w, inc, w.handlers[inc]);
      if raises {
        HandlerMoves(w, Writing(w, inc, raises), inc);
      } else if HasRow(w.ledger, job.KeyOf(i)) {
        ContinuedSound(w, inc, job, i, ok);
        HandlerMoves(w, Writing(w, inc, raises), inc);
      } else {
        RowWrittenKeeps(w, inc);
      }
    }
  }

  lemma RowWrittenKeeps(w: World, inc: IncidentId)
    requires Inv(w) && inc in w.handlers && w.handlers[inc].Returned?
    requires !HasRow(w.ledger, w.handlers[inc].job.KeyOf(w.handlers[inc].i))
    ensures Inv(Writing(w, inc, false))
  {
    hide MessagesGenuine, DecisionsKnown, LedgerSound, LogJustified, StatusSound, Done, AllDone, ActionRows;
    var w' := Writing(w, inc, false);
    var Returned(job, i, ok) := w.handlers[inc];
    assert HandlerSound(w, inc, w.handlers[inc]);
    RowAdded(w, inc, job, i, ok);
    assert Extends(w, w', inc);
    JobSoundLater(w, w', inc, inc, job);
    ProgressLater(w, w', inc, job, i);
    assert LedgerRow(job.KeyOf(i), ok) in w'.ledger;
    ContinuedSound(w', inc, job, i, ok);
    QuietStep(w, w', inc);
    StatusLater(w, w', inc);
    ActionRowsSnoc(w.audit, w'.audit[|w.audit|]);
  }

  lemma ContinuedSound(w: World, inc: IncidentId, job: Job, i: nat, ok: bool)
    requires JobSound(w, inc, job) && Progress(w, job, i) && i < |job.steps|
    requires HasRow(w.ledger, job.KeyOf(i)) && (ok ==> Done(w.log, job.plan, i))
    ensures HandlerSound(w, inc, Continued(job, i, ok))
  {
  }

  lemma RowAdded(w: World, inc: IncidentId, job: Job, i: nat, ok: bool)
    requires LedgerSound(w.ledger, w.log) && Progress(w, job, i) && !HasRow(w.ledger, job.KeyOf(i))
    requires ok ==> Done(w.log, job.plan, i)
    ensures LedgerSound(w.ledger + [LedgerRow(job.KeyOf(i), ok)], w.log)
  {
    var row := LedgerRow(job.KeyOf(i), ok);
    var longer := w.ledger + [row];
    forall r, o: nat | r in longer && o < r.key.ordinal
      ensures HasRow(longer, r.key.(ordinal := o))
    {
      assert HasRow(w.ledger, r.key.(ordinal := o)) by {
        if r == row {
          assert r.key.(ordinal := o) == job.KeyOf(o);
        }
      }
      var x :| x in w.ledger && x.key == r.key.(ordinal := o);
      assert x in longer;
    }
    forall a, b | 0 <= a < b < |longer|
      ensures longer[a].key != longer[b].key
    {
      assert longer[a] in w.ledger;
    }
  }

  lemma CompensationJustified(w: World, w': World, inc: IncidentId, job: Job, k: nat, ok: bool)
    requires Extends(w, w', inc) && w'.ledger == w.ledger
    requires HandlerSound(w, inc, Undoing(job, k)) && 0 < k <= |job.steps|
    ensures HandlerSound(w', inc, Undone(job, k, ok))
    ensures Done(w.log, job.plan, k - 1)
  {
    HandlerLater(w, w', inc, inc, Undone(job, k, ok));
  }

  lemma UndoOneKeeps(w: World, inc: IncidentId, ok: bool)
    requires Inv(w)
    ensures Inv(UndoOne(w, inc, ok))
  {
    hide MessagesGenuine, DecisionsKnown, LedgerSound, LogJustified, Done;
    if inc in w.handlers && w.handlers[inc].Undoing? {
      var w' := UndoOne(w, inc, ok);
      var Undoing(job, k) := w.handlers[inc];
      assert HandlerSound(w, inc, w.handlers[inc]);
      if k == 0 || RollbackOf(job.catalog, job.steps[k - 1].action) == None {
        HandlerMoves(w, w', inc);
      } else {
        CompensatingKeeps(w, inc, ok);
      }
    }
  }

  lemma CompensatingKeeps(w: World, inc: IncidentId, ok: bool)
    requires Inv(w) && inc in w.handlers && w.handlers[inc].Undoing?
    requires 0 < w.handlers[inc].k <= |w.handlers[inc].job.steps|
    requires RollbackOf(w.handlers[inc].job.catalog, w.handlers[inc].job.steps[w.handlers[inc].k - 1].action).Some?
    ensures Inv(UndoOne(w, inc, ok))
  {
    hide HandlerSound, MessagesGenuine, DecisionsKnown, LedgerSound, LogJustified, StatusSound, Done, RollbackOf;
    var w' := UndoOne(w, inc, ok);
    var Undoing(job, k) := w.handlers[inc];
    assert HandlerSound(w, inc, w.handlers[inc]);
    assert JobSound(w, inc, job) by {
      JobOfHandler(w, inc, w.handlers[inc]);
    }
    assert Extends(w, w', inc);
    CompensationJustified(w, w', inc, job, k, ok);
    QuietStep(w, w', inc);
    StatusLater(w, w', inc);
    LedgerLater(w, w', inc);
  }

  lemma JobOfHandler(w: World, inc: IncidentId, h: Handler)
    requires HandlerSound(w, inc, h)
    ensures JobSound(w, inc, h.job)
  {
  }

  lemma AuditingUndoKeeps(w: World, inc: IncidentId)
    requires Inv(w)
    ensures Inv(AuditingUndo(w, inc))
  {
    hide MessagesGenuine, DecisionsKnown, LedgerSound, LogJustified, Done, ActionRows;
    if inc in w.handlers && w.handlers[inc].Undone? {
      var w' := AuditingUndo(w, inc);
      assert HandlerSound(w, inc, w.handlers[inc]);
      assert Extends(w, w', inc);
      HandlerLater(w, w', inc, inc, Undoing(w.handlers[inc].job, w.handlers[inc].k - 1));
      QuietStep(w, w', inc);
      StatusLater(w, w', inc);
      LedgerLater(w, w', inc);
      ActionRowsSnoc(w.audit, w'.audit[|w.audit|]);
    }
  }

  lemma NextKeeps(w: World, s: Step)
    requires Inv(w)
    ensures Inv(Next(w, s))
  {
    hide Inv, Proposing, Deciding, Injecting, Minting, Delivering, Checking, Tripping, Applying, Writing, UndoOne, AuditingUndo;
    match s
    case OpenIncident(i, token) => OpenIncidentKeeps(w, i, token);
    case Propose(p, i, steps) => ProposingKeeps(w, p, i, steps);
    case Decide(p, v, a, late) => DecidingKeeps(w, p, v, a, late);
    case Publish(m) => PublishKeeps(w, m);
    case Inject(m) => InjectingKeeps(w, m);
    case Deliver(m, c) => DeliveringKeeps(w, m, c);
    case Mint(i, namespace) => MintingKeeps(w, i, namespace);
    case Check(i) => CheckingKeeps(w, i);
    case Trip(i) => TrippingKeeps(w, i);
    case Apply(i, ok) => ApplyingKeeps(w, i, ok);
    case Write(i, raises) => WritingKeeps(w, i, raises);
    case Undo(i, ok) => UndoOneKeeps(w, i, ok);
    case AuditUndo(i) => AuditingUndoKeeps(w, i);
    case Crash(i) => HandlerMoves(w, Next(w, s), i);
  }

  lemma {:induction false} RunKeeps(steps: seq<Step>)
    ensures Inv(Run(steps))
  {
    if steps == [] {
    } else {
      RunKeeps(steps[..|steps| - 1]);
      NextKeeps(Run(steps[..|steps| - 1]), steps[|steps| - 1]);
    }
  }
}
