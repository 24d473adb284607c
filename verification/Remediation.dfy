/**
  The action path as a transition system: the policy decision point (policy_approval/app.py), the
  topic that carries approvals (any message may be delivered any number of times), and the action
  executor (action_executor/worker.py), which can crash between any two of its atomic actions.  The
  executor does not trust the topic: anyone may put messages on it, but only signatures that have been
  made, for a decision or for a capability, can be valid.

  Every unit of work (src/aegis_common/db.py:44-55) is one step, and so is every runtime call, except
  that sessions which decide the same plan may overlap (DecisionRace takes them apart).  An incident
  has at most one handler at a time: the executor runs as one replica
  (deploy/k8s/deployments-workers.yaml:105), which handles one message after the other.
*/
module Remediation {
  import opened Options

  type IncidentId = nat
  type PlanId = nat

  // ----- Plans and the catalog -----

  datatype Params = Object(fields: map<string, string>) | NotAnObject

  datatype PlanStep = PlanStep(action: string, params: Params)

  datatype CatalogEntry = CatalogEntry(required: seq<string>, rollback: Option<string>, enabled: bool)

  type Catalog = map<string, CatalogEntry>

  /** What is fixed when a plan is written. */
  datatype Plan = Plan(incident: IncidentId, steps: seq<PlanStep>)

  datatype PlanStatus = Proposed | Approved | Rejected | Executing | Executed

  /** validate_action_params (src/aegis_common/security.py:79-91). */
  predicate ParamsValid(params: Params, required: seq<string>) {
    params.Object? && forall k :: k in required ==> k in params.fields
  }

  predicate Runnable(catalog: Catalog, step: PlanStep) {
    && step.action in catalog
    && catalog[step.action].enabled
    && ParamsValid(step.params, catalog[step.action].required)
  }

  /** The compensating action; an empty name counts as none. */
  function RollbackOf(catalog: Catalog, action: string): Option<string> {
    if action in catalog && catalog[action].rollback != Some("") then catalog[action].rollback else None
  }

  // ----- Approvals -----

  datatype Verdict = Approve | Reject

  datatype Record = Record(
    plan: PlanId, incident: IncidentId, verdict: Verdict, approver: string, token: Option<int>)

  /**
    The two kinds of records that are signed, with one key and one function
    (src/aegis_common/security.py:33-35, 64-72): decisions, and capabilities without their expiry.
  */
  datatype Claim =
    | Approval(record: Record)
    | Capability(incident: IncidentId, plan: PlanId, token: int, namespace: string)

  /** Symbolic signing: only the signer makes a Signed value, and it names what was signed. */
  datatype Signature = Signed(claim: Claim) | Unknown(text: string)

  function SignApproval(r: Record): Signature {
    Signed(Approval(r))
  }

  /** verify_approval does not ask which kind of record it is given. */
  predicate VerifyApproval(claim: Claim, s: Signature) {
    s == Signed(claim)
  }

  /** The record's fencing token, which both kinds have. */
  function TokenOf(claim: Claim): Option<int> {
    match claim
    case Approval(record) => record.token
    case Capability(_, _, token, _) => Some(token)
  }

  /** An APPROVED event on actions.requested. */
  datatype Message = Message(incident: IncidentId, plan: PlanId, claim: Claim, signature: Signature)

  /** The message carries a decision, which approves the plan and the incident that the message itself names. */
  predicate Matches(m: Message) {
    && m.claim.Approval?
    && m.claim.record.plan == m.plan && m.claim.record.incident == m.incident && m.claim.record.verdict == Approve
  }

  /** The event that tells of an approval. */
  function MessageOf(r: Record): Message {
    Message(r.incident, r.plan, Approval(r), SignApproval(r))
  }

  /**
    The currency check: int(record token, -1 if absent) against int(incident token or -2).  A token
    that was recorded as null makes the handler raise, which refuses the message just as well.
  */
  predicate TokenCurrent(recorded: Option<int>, current: Option<int>) {
    recorded.Some? && recorded.value == if current in {None, Some(0)} then -2 else current.value
  }

  // ----- The ledger and what is observable -----

  /** The idempotency key "incident:step:token"; a step row is named by its plan and ordinal. */
  datatype Key = Key(incident: IncidentId, plan: PlanId, ordinal: nat, token: int)

  datatype LedgerRow = LedgerRow(key: Key, success: bool)

  datatype AuditNote =
    | PlanDecided(plan: PlanId, verdict: Verdict)
    | ActionApplied(key: Key)
    | ActionFailed(key: Key)
    | ActionRolledBack(key: Key, ok: bool)
    | IncidentResolved(incident: IncidentId, plan: PlanId)

  /** What happened, in order: committed approval rows, runtime calls with their result, resolutions. */
  datatype Event =
    | Decided(record: Record)
    | Forward(key: Key, action: string, params: Params, ok: bool)
    | Compensate(key: Key, action: string, params: Params, ok: bool)
    | Resolve(incident: IncidentId, plan: PlanId)

  // ----- The executor's handler, as a program counter -----

  /** What a handler holds in memory after its first unit of work. */
  datatype Job = Job(incident: IncidentId, plan: PlanId, token: int, steps: seq<PlanStep>, catalog: Catalog) {
    function KeyOf(ordinal: nat): Key {
      Key(incident, plan, ordinal, token)
    }
  }

  datatype Handler =
    | Walking(job: Job, i: nat)              // steps before i are applied; step i comes next
    | Cleared(job: Job, i: nat)              // no success row for step i; about to call the runtime
    | Returned(job: Job, i: nat, ok: bool)   // the runtime answered; nothing is written down yet
    | Undoing(job: Job, k: nat)              // steps k-1, ..., 0 are still to be compensated
    | Undone(job: Job, k: nat, ok: bool)     // the compensation of step k-1 was called, not yet audited

  datatype World = World(
    incidents: map<IncidentId, Option<int>>,   // incident rows: the fencing token
    plans: map<PlanId, Plan>,                  // every plan ever written
    status: map<PlanId, PlanStatus>,           // the plan rows that still exist
    unsent: set<Message>,                      // approvals committed, not yet published
    topic: set<Message>,
    minted: set<Claim>,                        // the capabilities that have been signed
    ledger: seq<LedgerRow>,
    audit: seq<AuditNote>,
    handlers: map<IncidentId, Handler>,
    log: seq<Event>)

  const INITIAL := World(map[], map[], map[], {}, {}, {}, [], [], map[], [])

  datatype Step =
    | OpenIncident(incident: IncidentId, token: Option<int>)
    | Propose(plan: PlanId, incident: IncidentId, steps: seq<PlanStep>)
    | Decide(plan: PlanId, verdict: Verdict, approver: string, late: bool)
    | Publish(message: Message)
    | Inject(message: Message)
    | Deliver(message: Message, catalog: Catalog)
    | Mint(incident: IncidentId, namespace: string)
    | Check(incident: IncidentId)
    | Trip(incident: IncidentId)
    | Apply(incident: IncidentId, ok: bool)
    | Write(incident: IncidentId, raises: bool)
    | Undo(incident: IncidentId, ok: bool)
    | AuditUndo(incident: IncidentId)
    | Crash(incident: IncidentId)

  predicate HasRow(ledger: seq<LedgerRow>, key: Key) {
    exists r :: r in ledger && r.key == key
  }

  predicate HasSuccess(ledger: seq<LedgerRow>, key: Key) {
    LedgerRow(key, true) in ledger
  }

  // ----- The steps -----

  /** The orchestrator replaces every plan of the incident by a new proposed one (orchestrator/worker.py:149-164). */
  function Proposing(w: World, plan: PlanId, incident: IncidentId, steps: seq<PlanStep>): World {
    if plan in w.plans || incident !in w.incidents || steps == [] then w
    else
      var plans := w.plans[plan := Plan(incident, steps)];
      w.(plans := plans,
         status := (map p | p in w.status && p in w.plans && w.plans[p].incident != incident :: w.status[p])[plan := Proposed])
  }

  /**
    decide, up to its commit (policy_approval/app.py:130-150).  A late one is that of a session which
    saw the plan proposed and commits after another has decided it: nothing looks at the status again,
    but the plan's row must still be there.
  */
  function Deciding(w: World, plan: PlanId, verdict: Verdict, approver: string, late: bool): World {
    if plan !in w.status || plan !in w.plans || (w.status[plan] != Proposed && !late) then w
    else
      var incident := w.plans[plan].incident;
      var token := if incident in w.incidents then w.incidents[incident] else Some(0);
      var record := Record(plan, incident, verdict, approver, token);
      w.(status := w.status[plan := if verdict == Approve then Approved else Rejected],
         unsent := if verdict == Approve then w.unsent + {MessageOf(record)} else w.unsent,
         audit := w.audit + [PlanDecided(plan, verdict)],
         log := w.log + [Decided(record)])
  }

  /** The checks at the start of handle_approved (action_executor/worker.py:54-72). */
  predicate Accepts(w: World, m: Message) {
    && VerifyApproval(m.claim, m.signature)
    && m.plan in w.status && m.plan in w.plans
    && m.incident in w.incidents
    && TokenCurrent(TokenOf(m.claim), w.incidents[m.incident])
  }

  function JobOf(w: World, m: Message, catalog: Catalog): Job
    requires Accepts(w, m)
  {
    Job(m.incident, m.plan, w.incidents[m.incident].GetOr(0), w.plans[m.plan].steps, catalog)
  }

  function Delivering(w: World, m: Message, catalog: Catalog): World {
    if m !in w.topic || m.incident in w.handlers || !Accepts(w, m) then w
    else w.(status := w.status[m.plan := Executing],
            handlers := w.handlers[m.incident := Walking(JobOf(w, m, catalog), 0)])
  }

  /** The head of the step loop and the ledger look-up, or the closing unit of work. */
  function Checking(w: World, inc: IncidentId): World {
    if inc !in w.handlers || !w.handlers[inc].Walking? then w
    else
      var Walking(job, i) := w.handlers[inc];
      if i >= |job.steps| then
        w.(status := if job.plan in w.status then w.status[job.plan := Executed] else w.status,
           audit := w.audit + [IncidentResolved(job.incident, job.plan)],
           log := w.log + [Resolve(job.incident, job.plan)],
           handlers := w.handlers - {inc})
      else if !Runnable(job.catalog, job.steps[i]) then w.(handlers := w.handlers[inc := Undoing(job, i)])
      else if HasSuccess(w.ledger, job.KeyOf(i)) then w.(handlers := w.handlers[inc := Walking(job, i + 1)])
      else w.(handlers := w.handlers[inc := Cleared(job, i)])
  }

  /** The breaker refuses the call. */
  function Tripping(w: World, inc: IncidentId): World {
    if inc !in w.handlers || !w.handlers[inc].Cleared? then w
    else w.(handlers := w.handlers[inc := Undoing(w.handlers[inc].job, w.handlers[inc].i)])
  }

  function Applying(w: World, inc: IncidentId, ok: bool): World {
    if inc !in w.handlers || !w.handlers[inc].Cleared? || w.handlers[inc].i >= |w.handlers[inc].job.steps| then w
    else
      var Cleared(job, i) := w.handlers[inc];
      w.(handlers := w.handlers[inc := Returned(job, i, ok)],
         log := w.log + [Forward(job.KeyOf(i), job.steps[i].action, job.steps[i].params, ok)])
  }

  function Continued(job: Job, i: nat, ok: bool): Handler {
    if ok then Walking(job, i + 1) else Undoing(job, i)
  }

  /**
    The unit of work that adds the ledger row and its audit record.  It can fail and end the handler,
    because the key or the audit record's number is taken or the database is gone; then neither is
    written.  If it does not, a taken key has been swallowed, and again neither is written.
  */
  function Writing(w: World, inc: IncidentId, raises: bool): World {
    if inc !in w.handlers || !w.handlers[inc].Returned? then w
    else
      var Returned(job, i, ok) := w.handlers[inc];
      var key := job.KeyOf(i);
      if raises then w.(handlers := w.handlers - {inc})
      else if !HasRow(w.ledger, key) then
        w.(ledger := w.ledger + [LedgerRow(key, ok)],
           audit := w.audit + [if ok then ActionApplied(key) else ActionFailed(key)],
           handlers := w.handlers[inc := Continued(job, i, ok)])
      else w.(handlers := w.handlers[inc := Continued(job, i, ok)])
  }

  /** One round of the compensation loop, up to and including the runtime call. */
  function UndoOne(w: World, inc: IncidentId, ok: bool): World {
    if inc !in w.handlers || !w.handlers[inc].Undoing? || w.handlers[inc].k > |w.handlers[inc].job.steps| then w
    else
      var Undoing(job, k) := w.handlers[inc];
      if k == 0 then w.(handlers := w.handlers - {inc})
      else
        var step := job.steps[k - 1];
        match RollbackOf(job.catalog, step.action)
        case None => w.(handlers := w.handlers[inc := Undoing(job, k - 1)])
        case Some(rollback) =>
          w.(handlers := w.handlers[inc := Undone(job, k, ok)],
             log := w.log + [Compensate(job.KeyOf(k - 1), rollback, step.params, ok)])
  }

  function AuditingUndo(w: World, inc: IncidentId): World {
    if inc !in w.handlers || !w.handlers[inc].Undone? || w.handlers[inc].k == 0 then w
    else
      var Undone(job, k, ok) := w.handlers[inc];
      w.(handlers := w.handlers[inc := Undoing(job, k - 1)],
         audit := w.audit + [ActionRolledBack(job.KeyOf(k - 1), ok)])
  }

  /** The signature has been made: for a decision that was taken, or for a capability that was minted. */
  predicate Made(w: World, claim: Claim) {
    match claim
    case Approval(record) => Decided(record) in w.log
    case Capability(_, _, _, _) => claim in w.minted
  }

  /** Any message, but no signature that has not been made. */
  function Injecting(w: World, m: Message): World {
    if m.signature.Signed? && !Made(w, m.signature.claim) then w else w.(topic := w.topic + {m})
  }

  /** A handler signs itself a capability for its plan (action_executor/worker.py:101-103, 167-169). */
  function Minting(w: World, inc: IncidentId, namespace: string): World {
    if inc !in w.handlers then w
    else
      var job := w.handlers[inc].job;
      w.(minted := w.minted + {Capability(job.incident, job.plan, job.token, namespace)})
  }

  /** One step; a step that cannot happen changes nothing. */
  function Next(w: World, s: Step): World {
    match s
    case OpenIncident(i, token) => if i in w.incidents then w else w.(incidents := w.incidents[i := token])
    case Propose(p, i, steps) => Proposing(w, p, i, steps)
    case Decide(p, v, a, late) => Deciding(w, p, v, a, late)
    case Publish(m) => if m in w.unsent then w.(unsent := w.unsent - {m}, topic := w.topic + {m}) else w
    case Inject(m) => Injecting(w, m)
    case Deliver(m, c) => Delivering(w, m, c)
    case Mint(i, namespace) => Minting(w, i, namespace)
    case Check(i) => Checking(w, i)
    case Trip(i) => Tripping(w, i)
    case Apply(i, ok) => Applying(w, i, ok)
    case Write(i, raises) => Writing(w, i, raises)
    case Undo(i, ok) => UndoOne(w, i, ok)
    case AuditUndo(i) => AuditingUndo(w, i)
    case Crash(i) => w.(handlers := w.handlers - {i})
  }

  function Run(steps: seq<Step>): World {
    if steps == [] then INITIAL
    else Next(Run(steps[..|steps| - 1]), steps[|steps| - 1])
  }
}
