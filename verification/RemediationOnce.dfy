/**
  How often a step is applied with success under its idempotency key
  (src/aegis_services/action_executor/worker.py:120-156): at most once as long as no answer of the
  runtime is lost before its row is written, and after a loss again exactly if the plan is still there.
*/
module RemediationOnce {
  import opened Options
  import opened Remediation
  import opened RemediationAuthority
  import opened RemediationRuns
  import opened RemediationSafety
  import opened Compensation
  import opened HandlerRuns

  /** How many successful forward calls were made under the key. */
  function Successes(log: seq<Event>, key: Key): nat {
    if log == [] then 0
    else Successes(log[..|log| - 1], key) + if IsSuccessUnder(log[|log| - 1], key) then 1 else 0
  }

  predicate IsSuccessUnder(e: Event, key: Key) {
    e.Forward? && e.ok && e.key == key
  }

  ghost predicate LosesNothing(steps: seq<Step>) {
    forall i :: 0 <= i < |steps| ==> !Loses(Run(steps[..i]), steps[i])
  }

  // ----- Without a loss -----

  predicate Pending(w: World, key: Key) {
    AtStake(w, key.incident) && KeyAtStake(w, key.incident) == key
  }

  predicate Accounted(w: World, key: Key) {
    HasSuccess(w.ledger, key) || Pending(w, key)
  }

  /** Every successful call is accounted for, and no key has two of them. */
  ghost predicate Once(w: World) {
    forall key :: Successes(w.log, key) <= if Accounted(w, key) then 1 else 0
  }

  lemma {:induction false} AccountedStays(w: World, s: Step, key: Key)
    requires Inv(w) && !Loses(w, s) && Accounted(w, key)
    ensures Accounted(Next(w, s), key)
  {
    hide Inv;
    NextIsQuiet(w, s);
    if HasSuccess(w.ledger, key) {
      InPrefix(w.ledger, Next(w, s).ledger, key);
    } else {
      PendingStays(w, s, key);
    }
  }

  lemma InPrefix(ledger: seq<LedgerRow>, longer: seq<LedgerRow>, key: Key)
    requires ledger <= longer && HasSuccess(ledger, key)
    ensures HasSuccess(longer, key)
  {
    var i :| 0 <= i < |ledger| && ledger[i] == LedgerRow(key, true);
    assert longer[i] == LedgerRow(key, true);
  }

  lemma PendingStays(w: World, s: Step, key: Key)
    requires !Loses(w, s) && Pending(w, key)
    ensures Accounted(Next(w, s), key)
  {
    hide Proposing, Deciding, Checking, Tripping, Applying, Writing, UndoOne, AuditingUndo, HasSuccess, Accepts;
    var inc := key.incident;
    match s
    case Propose(plan, incident, steps) => PdpMovesNothing(w, plan, incident, steps, Approve, "", false);
    case Decide(plan, verdict, approver, late) => PdpMovesNothing(w, plan, 0, [], verdict, approver, late);
    case Check(i) => ReturnedWaits(w, i, inc, true);
    case Trip(i) => ReturnedWaits(w, i, inc, true);
    case Apply(i, ok) => ReturnedWaits(w, i, inc, ok);
    case Undo(i, ok) => ReturnedWaits(w, i, inc, ok);
    case AuditUndo(i) => ReturnedWaits(w, i, inc, true);
    case Write(i, raises) => WriteAccounts(w, i, raises, key);
    case _ =>
  }

  /** Where the runtime has answered, only the writing of the row, or a crash, moves the handler. */
  lemma ReturnedWaits(w: World, i: IncidentId, inc: IncidentId, ok: bool)
    requires AtStake(w, inc)
    ensures forall w' :: w' in {Checking(w, i), Tripping(w, i), Applying(w, i, ok), UndoOne(w, i, ok), AuditingUndo(w, i)} ==>
      inc in w'.handlers && w'.handlers[inc] == w.handlers[inc]
  {
    hide Runnable, HasSuccess, RollbackOf;
  }

  lemma WriteAccounts(w: World, i: IncidentId, raises: bool, key: Key)
    requires !Loses(w, Write(i, raises)) && Pending(w, key)
    ensures Accounted(Writing(w, i, raises), key)
  {
    hide HasRow;
    if i == key.incident {
      assert LedgerRow(key, true) in Writing(w, i, raises).ledger;
    }
  }

  lemma SuccessesSnoc(log: seq<Event>, e: Event, key: Key)
    ensures Successes(log + [e], key) == Successes(log, key) + if IsSuccessUnder(e, key) then 1 else 0
  {
    assert (log + [e])[..|log|] == log;
  }

  /** A success is new to its key, and accounted for. */
  lemma NewSuccess(w: World, s: Step, key: Key)
    requires Inv(w) && |Next(w, s).log| > |w.log| && IsSuccessUnder(Next(w, s).log[|w.log|], key)
    ensures !Accounted(w, key) && Accounted(Next(w, s), key)
  {
    hide PlansKnown, MessagesGenuine, DecisionsKnown, LedgerSound, AuditMatches, LogJustified, StatusSound;
    hide Proposing, Deciding, Injecting, Minting, Delivering, Checking, Tripping, Writing, UndoOne, AuditingUndo;
    NextIsQuiet(w, s);
    assert s.Apply?;
    assert HandlerSound(w, s.incident, w.handlers[s.incident]);
  }

  lemma NextOnce(w: World, s: Step)
    requires Inv(w) && Once(w) && !Loses(w, s)
    ensures Once(Next(w, s))
  {
    hide Inv, Next, Accounted, Loses, IsSuccessUnder;
    var w' := Next(w, s);
    NextIsQuiet(w, s);
    forall key
      ensures Successes(w'.log, key) <= if Accounted(w', key) then 1 else 0
    {
      if Accounted(w, key) {
        AccountedStays(w, s, key);
      }
      if |w'.log| > |w.log| {
        assert w'.log == w.log + [w'.log[|w.log|]];
        SuccessesSnoc(w.log, w'.log[|w.log|], key);
        if IsSuccessUnder(w'.log[|w.log|], key) {
          NewSuccess(w, s, key);
        }
      } else {
        assert w'.log == w.log;
      }
    }
  }

  lemma {:induction false} RunOnce(steps: seq<Step>)
    requires LosesNothing(steps)
    ensures Once(Run(steps))
  {
    hide Next, Loses, Once;
    if steps == [] {
      InitiallyOnce();
    } else {
      var earlier := steps[..|steps| - 1];
      forall i | 0 <= i < |earlier|
        ensures !Loses(Run(earlier[..i]), earlier[i])
      {
        assert earlier[..i] == steps[..i];
      }
      RunOnce(earlier);
      RunKeeps(earlier);
      NextOnce(Run(earlier), steps[|steps| - 1]);
    }
  }

  lemma InitiallyOnce()
    ensures Once(INITIAL)
  {
  }

  /**
    Over any redeliveries, and any crashes and failing units of work elsewhere: if no step of the run
    loses a success, no key has more than one.
  */
  lemma {:induction false} AppliedAtMostOnce(steps: seq<Step>, key: Key)
    requires LosesNothing(steps)
    ensures Successes(Run(steps).log, key) <= 1
  {
    hide Run, LosesNothing;
    RunOnce(steps);
  }

  // ----- What a handler needs to be started again -----

  ghost predicate Origin(w: World, inc: IncidentId, job: Job, m: Message) {
    && m in w.topic && VerifyApproval(m.claim, m.signature)
    && m.incident == inc && m.plan == job.plan
    && inc in w.incidents && TokenCurrent(TokenOf(m.claim), w.incidents[inc]) && job.token == w.incidents[inc].GetOr(0)
  }

  /** The message that started the handler is still on the topic, and still accepted as far as it can be. */
  ghost predicate Resumable(w: World, inc: IncidentId, job: Job) {
    exists m :: Origin(w, inc, job, m)
  }

  /** The steps behind the handler are runnable, and what it has called but not written has no success row. */
  predicate Ready(w: World, h: Handler) {
    match h
    case Walking(job, i) => i <= |job.steps| && AllRunnable(job, i)
    case Cleared(job, i) => i < |job.steps| && AllRunnable(job, i + 1)
    case Returned(job, i, ok) => i < |job.steps| && AllRunnable(job, i + 1) && !HasSuccess(w.ledger, job.KeyOf(i))
    case Undoing(_, _) => true
    case Undone(_, _, _) => true
  }

  ghost predicate Backed(w: World) {
    && (forall inc :: inc in w.handlers ==> Resumable(w, inc, w.handlers[inc].job))
    && (forall inc :: inc in w.handlers ==> Ready(w, w.handlers[inc]))
  }

  ghost predicate Grows(w: World, w': World) {
    && w.topic <= w'.topic
    && forall i :: i in w.incidents ==> i in w'.incidents && w'.incidents[i] == w.incidents[i]
  }

  lemma NextGrows(w: World, s: Step)
    ensures Grows(w, Next(w, s))
  {
    hide Runnable, Accepts, HasRow, HasSuccess, RollbackOf;
  }

  lemma ResumableLater(w: World, w': World, inc: IncidentId, job: Job)
    requires Grows(w, w') && Resumable(w, inc, job)
    ensures Resumable(w', inc, job)
  {
    var m :| Origin(w, inc, job, m);
    assert Origin(w', inc, job, m);
  }

  lemma DeliveryIsResumable(w: World, m: Message, catalog: Catalog)
    requires m in w.topic && m.incident !in w.handlers && Accepts(w, m)
    ensures Resumable(Delivering(w, m, catalog), m.incident, JobOf(w, m, catalog))
  {
    assert Origin(Delivering(w, m, catalog), m.incident, JobOf(w, m, catalog), m);
  }

  /** Every step but a delivery leaves a handler where it was, or moves it within its job. */
  lemma NextResumable(w: World, s: Step, inc: IncidentId)
    requires Inv(w) && Backed(w) && inc in Next(w, s).handlers
    ensures Resumable(Next(w, s), inc, Next(w, s).handlers[inc].job)
  {
    hide Inv, Resumable, Ready, Accepts, Grows, JobsAtHome;
    NextGrows(w, s);
    InvMeansAtHome(w);
    if s.Deliver? {
      if inc in w.handlers {
        ResumableLater(w, Next(w, s), inc, w.handlers[inc].job);
      } else {
        DeliveryIsResumable(w, s.message, s.catalog);
      }
    } else {
      NextIsTame(w, s);
      ResumableLater(w, Next(w, s), inc, w.handlers[inc].job);
    }
  }

  /** A row for one incident says nothing about the keys of another. */
  lemma OtherRow(ledger: seq<LedgerRow>, row: LedgerRow, key: Key)
    requires row.key != key
    ensures HasSuccess(ledger + [row], key) <==> HasSuccess(ledger, key)
  {
  }

  lemma NextReadyElsewhere(w: World, s: Step, inc: IncidentId)
    requires JobsAtHome(w) && inc in w.handlers && Ready(w, w.handlers[inc])
    requires inc in Next(w, s).handlers && Next(w, s).handlers[inc] == w.handlers[inc]
    ensures Ready(Next(w, s), Next(w, s).handlers[inc])
  {
    hide Runnable, Accepts, HasRow, HasSuccess, RollbackOf, AllRunnable;
    var h := w.handlers[inc];
    if h.Returned? && Next(w, s).ledger != w.ledger {
      WroteElsewhere(w, s, inc);
    }
  }

  lemma OnlyWritesAddRows(w: World, s: Step)
    requires !s.Write?
    ensures Next(w, s).ledger == w.ledger
  {
    hide Runnable, Accepts, HasSuccess, RollbackOf, Writing;
  }

  lemma WroteElsewhere(w: World, s: Step, inc: IncidentId)
    requires JobsAtHome(w) && inc in w.handlers && w.handlers[inc].Returned?
    requires inc in Next(w, s).handlers && Next(w, s).handlers[inc] == w.handlers[inc]
    requires Next(w, s).ledger != w.ledger
    ensures HasSuccess(Next(w, s).ledger, w.handlers[inc].job.KeyOf(w.handlers[inc].i)) <==>
            HasSuccess(w.ledger, w.handlers[inc].job.KeyOf(w.handlers[inc].i))
  {
    hide Proposing, Deciding, Delivering, Checking, Tripping, Applying, UndoOne, AuditingUndo, HasRow, HasSuccess;
    if !s.Write? {
      OnlyWritesAddRows(w, s);
    }
    assert s.Write? && s.incident != inc;
    OtherRow(w.ledger, Next(w, s).ledger[|w.ledger|], w.handlers[inc].job.KeyOf(w.handlers[inc].i));
  }

  lemma CheckReady(w: World, inc: IncidentId)
    requires inc in w.handlers && Ready(w, w.handlers[inc]) && inc in Checking(w, inc).handlers
    ensures Ready(Checking(w, inc), Checking(w, inc).handlers[inc])
  {
    hide Runnable, HasSuccess;
  }

  lemma ApplyReady(w: World, inc: IncidentId, ok: bool)
    requires inc in w.handlers && Ready(w, w.handlers[inc]) && HandlerSound(w, inc, w.handlers[inc])
    ensures Ready(Applying(w, inc, ok), Applying(w, inc, ok).handlers[inc])
  {
    hide Runnable, HasSuccess, Progress, JobSound, AllRunnable;
  }

  lemma WriteReady(w: World, inc: IncidentId, raises: bool)
    requires inc in w.handlers && Ready(w, w.handlers[inc]) && inc in Writing(w, inc, raises).handlers
    ensures Ready(Writing(w, inc, raises), Writing(w, inc, raises).handlers[inc])
  {
    hide Runnable, HasRow, HasSuccess;
  }

  lemma CompensationReady(w: World, inc: IncidentId, ok: bool)
    requires inc in w.handlers && Ready(w, w.handlers[inc])
    ensures Ready(Tripping(w, inc), Tripping(w, inc).handlers[inc])
    ensures Ready(AuditingUndo(w, inc), AuditingUndo(w, inc).handlers[inc])
    ensures inc in UndoOne(w, inc, ok).handlers ==> Ready(UndoOne(w, inc, ok), UndoOne(w, inc, ok).handlers[inc])
  {
    hide RollbackOf, AllRunnable, HasSuccess;
  }

  lemma DeliveryReady(w: World, m: Message, catalog: Catalog)
    requires m.incident !in w.handlers && m.incident in Delivering(w, m, catalog).handlers
    ensures Ready(Delivering(w, m, catalog), Delivering(w, m, catalog).handlers[m.incident])
  {
    hide Accepts;
  }

  /** Only the handler of the incident moves. */
  ghost predicate OnlyMoves(w: World, w': World, inc: IncidentId) {
    && (forall i :: i in w'.handlers && i != inc ==> i in w.handlers && w'.handlers[i] == w.handlers[i])
    && (inc in w'.handlers ==> inc in w.handlers)
  }

  lemma WalkMoves(w: World, inc: IncidentId, ok: bool)
    ensures OnlyMoves(w, Checking(w, inc), inc) && OnlyMoves(w, Tripping(w, inc), inc)
    ensures OnlyMoves(w, Applying(w, inc, ok), inc)
  {
    hide Runnable, HasSuccess;
  }

  lemma WriteMoves(w: World, inc: IncidentId, flag: bool)
    ensures OnlyMoves(w, Writing(w, inc, flag), inc) && OnlyMoves(w, UndoOne(w, inc, flag), inc)
    ensures OnlyMoves(w, AuditingUndo(w, inc), inc)
  {
    hide HasRow, RollbackOf;
  }

  lemma PdpMovesNothing(w: World, plan: PlanId, incident: IncidentId, steps: seq<PlanStep>, verdict: Verdict,
                        approver: string, late: bool)
    ensures Proposing(w, plan, incident, steps).handlers == w.handlers
    ensures Deciding(w, plan, verdict, approver, late).handlers == w.handlers
  {
  }

  /** A handler only moves in a step of its own incident. */
  lemma MovesItself(w: World, s: Step, inc: IncidentId)
    requires inc in Next(w, s).handlers && (inc in w.handlers ==> Next(w, s).handlers[inc] != w.handlers[inc])
    ensures s.Deliver? || s.Check? || s.Trip? || s.Apply? || s.Write? || s.Undo? || s.AuditUndo?
    ensures if s.Deliver? then s.message.incident == inc && inc !in w.handlers else s.incident == inc && inc in w.handlers
  {
    hide Proposing, Deciding, Checking, Tripping, Applying, Writing, UndoOne, AuditingUndo, Accepts;
    match s
    case Propose(plan, incident, steps) => PdpMovesNothing(w, plan, incident, steps, Approve, "", false);
    case Decide(plan, verdict, approver, late) => PdpMovesNothing(w, plan, 0, [], verdict, approver, late);
    case Check(i) => WalkMoves(w, i, true);
    case Trip(i) => WalkMoves(w, i, true);
    case Apply(i, ok) => WalkMoves(w, i, ok);
    case Write(i, raises) => WriteMoves(w, i, raises);
    case Undo(i, ok) => WriteMoves(w, i, ok);
    case AuditUndo(i) => WriteMoves(w, i, true);
    case _ =>
  }

  lemma NextReadyMoved(w: World, s: Step, inc: IncidentId)
    requires Inv(w) && inc in Next(w, s).handlers
    requires inc in w.handlers ==> Ready(w, w.handlers[inc]) && Next(w, s).handlers[inc] != w.handlers[inc]
    ensures Ready(Next(w, s), Next(w, s).handlers[inc])
  {
    hide PlansKnown, MessagesGenuine, DecisionsKnown, LedgerSound, AuditMatches, LogJustified, StatusSound, HandlerSound;
    hide Proposing, Deciding, Injecting, Minting, Delivering, Checking, Tripping, Applying, Writing, UndoOne, AuditingUndo, Ready;
    MovesItself(w, s, inc);
    match s
    case Deliver(m, catalog) => DeliveryReady(w, m, catalog);
    case Check(_) => CheckReady(w, inc);
    case Trip(_) => CompensationReady(w, inc, true);
    case Apply(_, ok) =>
      assert HandlerSound(w, inc, w.handlers[inc]);
      ApplyReady(w, inc, ok);
    case Write(_, raises) => WriteReady(w, inc, raises);
    case Undo(_, ok) => CompensationReady(w, inc, ok);
    case AuditUndo(_) => CompensationReady(w, inc, true);
    case _ =>
  }

  lemma NextBacked(w: World, s: Step)
    requires Inv(w) && Backed(w)
    ensures Backed(Next(w, s))
  {
    hide Inv, Next, Resumable, Ready, JobsAtHome;
    var w' := Next(w, s);
    InvMeansAtHome(w);
    forall inc | inc in w'.handlers
      ensures Resumable(w', inc, w'.handlers[inc].job) && Ready(w', w'.handlers[inc])
    {
      NextResumable(w, s, inc);
      if inc in w.handlers && w'.handlers[inc] == w.handlers[inc] {
        NextReadyElsewhere(w, s, inc);
      } else {
        NextReadyMoved(w, s, inc);
      }
    }
  }

  lemma {:induction false} RunBacked(steps: seq<Step>)
    ensures Backed(Run(steps))
  {
    hide Next, Inv;
    if steps == [] {
      assert INITIAL.handlers == map[];
    } else {
      RunBacked(steps[..|steps| - 1]);
      RunKeeps(steps[..|steps| - 1]);
      NextBacked(Run(steps[..|steps| - 1]), steps[|steps| - 1]);
    }
  }

  // ----- After a loss -----

  lemma {:induction false} SuccessesGrow(log: seq<Event>, more: seq<Event>, key: Key)
    ensures Successes(log + more, key) >= Successes(log, key)
  {
    if more == [] {
      assert log + more == log;
    } else {
      SuccessesGrow(log, more[..|more| - 1], key);
      assert log + more == log + more[..|more| - 1] + [more[|more| - 1]];
      SuccessesSnoc(log + more[..|more| - 1], more[|more| - 1], key);
    }
  }

  /** The loss changes no table; the handler is gone, or has moved on as if the row were there. */
  lemma LossChangesNothing(w: World, s: Step)
    requires Loses(w, s)
    ensures var w', h := Next(w, s), w.handlers[s.incident];
      && w'.(handlers := w.handlers) == w
      && (s.incident in w'.handlers ==> w'.handlers[s.incident] == Walking(h.job, h.i + 1))
  {
    hide HasRow;
  }

  lemma CrashRemoves(w: World, inc: IncidentId)
    ensures Next(w, Crash(inc)) == w.(handlers := w.handlers - {inc})
  {
  }

  /** The message that started the handler is accepted once more, for the same job. */
  lemma StartsAgain(w: World, w': World, inc: IncidentId, job: Job, m: Message)
    requires Inv(w) && inc in w.handlers && w.handlers[inc].job == job && Origin(w, inc, job, m)
    requires w'.(handlers := w.handlers) == w && job.plan in w.status
    ensures Accepts(w', m) && JobOf(w', m, job.catalog) == job
  {
    hide HandlerSound, LedgerSound, LogJustified, DecisionsKnown, MessagesGenuine;
    assert JobSound(w, inc, job) by {
      JobOfHandler(w, inc, w.handlers[inc]);
    }
    assert m.plan in w.plans;
  }

  /** From the loss on: the handler dies, if it has not yet, and the message is delivered again, up to the same call. */
  lemma Repeats(w: World, s: Step) returns (more: seq<Step>)
    requires Inv(w) && Backed(w) && Loses(w, s)
    requires w.handlers[s.incident].job.plan in w.status
    ensures var key := KeyAtStake(w, s.incident);
      && Successes(RunOf(more, Next(w, s)).log, key) > Successes(Next(w, s).log, key)
      && LosesOnlyBefore(Next(w, s), more,
                         if FailedEarlier(w.ledger, w.handlers[s.incident].job, key.ordinal) then key.ordinal else 0)
  {
    hide LosesOnlyBefore, LosesBefore, FailedEarlier;
    hide Inv, Next, RunOf, Accepts, Runnable, HasRow, HasSuccess, WalkEvents, Successes, Loses;
    LossIsAtStake(w, s);
    var inc, job, i := s.incident, w.handlers[s.incident].job, w.handlers[s.incident].i;
    var key := job.KeyOf(i);
    var m :| Origin(w, inc, job, m);
    var w0 := Next(w, s);
    LossChangesNothing(w, s);
    CrashRemoves(w0, inc);
    var w1 := Next(w0, Crash(inc));
    StartsAgain(w, w1, inc, job, m);
    DeliveryStarts(w1, m, job.catalog);
    var w2 := Next(w1, Deliver(m, job.catalog));
    var walk := Walks(w2, inc, job, i);
    var w3 := RunOf(walk, w2);
    CheckClears(w3, inc, job, i);
    var w4 := Next(w3, Check(inc));
    ApplyReturns(w4, inc, job, i, true);
    more := [Crash(inc)] + [Deliver(m, job.catalog)] + walk + [Check(inc)] + [Apply(inc, true)];
    RunOfParts(w0, Crash(inc), Deliver(m, job.catalog), walk, Check(inc), Apply(inc, true));
    NothingAtStake(w, s);
    LossesOfParts(w0, Crash(inc), Deliver(m, job.catalog), walk, Check(inc), Apply(inc, true),
                  if FailedEarlier(w.ledger, job, i) then i else 0);
    SuccessesGrow(w0.log, WalkEvents(job, Skips(w2.ledger, job, i)), key);
    SuccessesSnoc(w3.log, ForwardCall(job, i, true), key);
  }

  lemma LossIsAtStake(w: World, s: Step)
    requires Loses(w, s)
    ensures (s.Crash? || s.Write?) && AtStake(w, s.incident)
  {
  }

  lemma RunOfParts(w: World, a: Step, b: Step, middle: seq<Step>, c: Step, d: Step)
    ensures RunOf([a] + [b] + middle + [c] + [d], w) == Next(Next(RunOf(middle, Next(Next(w, a), b)), c), d)
  {
    hide Next, RunOf;
    RunOfOne(a, w);
    RunOfOne(b, Next(w, a));
    RunOfOne(c, RunOf(middle, Next(Next(w, a), b)));
    RunOfOne(d, Next(RunOf(middle, Next(Next(w, a), b)), c));
    RunOfAppends([a], [b], w);
    RunOfAppends([a] + [b], middle, w);
    RunOfAppends([a] + [b] + middle, [c], w);
    RunOfAppends([a] + [b] + middle + [c], [d], w);
  }

  /** After a loss, ending the handler loses nothing more. */
  lemma NothingAtStake(w: World, s: Step)
    requires Loses(w, s)
    ensures !Loses(Next(w, s), Crash(s.incident))
  {
    hide Next;
    LossChangesNothing(w, s);
  }

  lemma LossesOfParts(w: World, a: Step, b: Step, middle: seq<Step>, c: Step, d: Step, n: nat)
    requires !Loses(w, a) && b.Deliver? && c.Check? && d.Apply?
    requires LosesOnlyBefore(Next(Next(w, a), b), middle, n)
    ensures LosesOnlyBefore(w, [a] + [b] + middle + [c] + [d], n)
  {
    hide Next, RunOf, LosesOnlyBefore;
    var w2 := Next(Next(w, a), b);
    var w3 := RunOf(middle, w2);
    RunOfOne(a, w);
    RunOfOne(b, Next(w, a));
    RunOfOne(c, w3);
    OneLoss(w, a, n);
    OneLoss(Next(w, a), b, n);
    OneLoss(w3, c, n);
    OneLoss(Next(w3, c), d, n);
    RunOfAppends([a], [b], w);
    RunOfAppends([a] + [b], middle, w);
    RunOfAppends([a] + [b] + middle, [c], w);
    LossesAppend(w, [a], [b], n);
    LossesAppend(w, [a] + [b], middle, n);
    LossesAppend(w, [a] + [b] + middle, [c], n);
    LossesAppend(w, [a] + [b] + middle + [c], [d], n);
  }

  // ----- Without the plan row -----

  /** The plan's row is gone for good, and a handler that still works on it is past the step. */
  predicate GoneAndPast(w: World, key: Key) {
    && key.plan in w.plans && key.plan !in w.status
    && (key.incident in w.handlers && w.handlers[key.incident].job.plan == key.plan ==>
          match w.handlers[key.incident]
          case Walking(_, i) => i > key.ordinal
          case Cleared(_, i) => i > key.ordinal
          case Returned(_, i, _) => i > key.ordinal
          case Undoing(_, _) => true
          case Undone(_, _, _) => true)
  }

  lemma GoneStaysInWalk(w: World, inc: IncidentId, flag: bool, key: Key)
    requires GoneAndPast(w, key)
    ensures GoneAndPast(Checking(w, inc), key) && GoneAndPast(Tripping(w, inc), key)
    ensures GoneAndPast(Applying(w, inc, flag), key)
  {
    hide Runnable, HasSuccess;
  }

  lemma GoneStaysInWrites(w: World, inc: IncidentId, flag: bool, key: Key)
    requires GoneAndPast(w, key)
    ensures GoneAndPast(Writing(w, inc, flag), key) && GoneAndPast(UndoOne(w, inc, flag), key)
    ensures GoneAndPast(AuditingUndo(w, inc), key)
  {
    hide HasRow, RollbackOf;
  }

  lemma GoneStays(w: World, s: Step, key: Key)
    requires GoneAndPast(w, key)
    ensures GoneAndPast(Next(w, s), key)
  {
    hide Checking, Tripping, Applying, Writing, UndoOne, AuditingUndo;
    match s
    case Check(inc) => GoneStaysInWalk(w, inc, true, key);
    case Trip(inc) => GoneStaysInWalk(w, inc, true, key);
    case Apply(inc, ok) => GoneStaysInWalk(w, inc, ok, key);
    case Write(inc, raises) => GoneStaysInWrites(w, inc, raises, key);
    case Undo(inc, ok) => GoneStaysInWrites(w, inc, ok, key);
    case AuditUndo(inc) => GoneStaysInWrites(w, inc, true, key);
    case _ =>
  }

  lemma GoneMakesNoCall(w: World, s: Step, key: Key)
    requires Inv(w) && GoneAndPast(w, key)
    ensures Successes(Next(w, s).log, key) == Successes(w.log, key)
  {
    hide Inv, GoneAndPast, Successes, IsSuccessUnder, Next, JobsAtHome;
    var w' := Next(w, s);
    NextIsQuiet(w, s);
    InvMeansAtHome(w);
    if |w'.log| > |w.log| {
      assert w'.log == w.log + [w'.log[|w.log|]];
      SuccessesSnoc(w.log, w'.log[|w.log|], key);
      if IsSuccessUnder(w'.log[|w.log|], key) {
        CallIsCurrent(w, s, key);
      }
    } else {
      assert w'.log == w.log;
    }
  }

  lemma CallIsCurrent(w: World, s: Step, key: Key)
    requires JobsAtHome(w) && |Next(w, s).log| > |w.log| && IsSuccessUnder(Next(w, s).log[|w.log|], key)
    ensures !GoneAndPast(w, key)
  {
    hide Proposing, Deciding, Injecting, Minting, Delivering, Checking, Tripping, Writing, UndoOne, AuditingUndo;
    NextIsQuiet(w, s);
    assert s.Apply?;
  }

  lemma {:induction false} GoneIsFinal(steps: seq<Step>, more: seq<Step>, key: Key)
    requires GoneAndPast(Run(steps), key)
    ensures GoneAndPast(Run(steps + more), key)
    ensures Successes(Run(steps + more).log, key) == Successes(Run(steps).log, key)
  {
    hide Run, Next, GoneAndPast, Successes, Inv;
    if more == [] {
      assert steps + more == steps;
    } else {
      var fewer, s := more[..|more| - 1], more[|more| - 1];
      GoneIsFinal(steps, fewer, key);
      RunKeeps(steps + fewer);
      RunSnoc(steps, more);
      GoneStays(Run(steps + fewer), s, key);
      GoneMakesNoCall(Run(steps + fewer), s, key);
    }
  }

  lemma LostAndGone(w: World, s: Step)
    requires Inv(w) && Loses(w, s) && w.handlers[s.incident].job.plan !in w.status
    ensures GoneAndPast(Next(w, s), KeyAtStake(w, s.incident))
  {
    hide HandlerSound, LedgerSound, LogJustified, DecisionsKnown, MessagesGenuine, HasRow;
    LossChangesNothing(w, s);
    JobOfHandler(w, s.incident, w.handlers[s.incident]);
  }

  // ----- Past a failed step -----

  /** The ledger holds an earlier step as failed, and the handler is not past it, or is past the key's own step. */
  predicate Blocked(w: World, key: Key, o: nat) {
    && o < key.ordinal && LedgerRow(key.(ordinal := o), false) in w.ledger
    && (key.incident in w.handlers && w.handlers[key.incident].job.plan == key.plan
        && w.handlers[key.incident].job.token == key.token ==>
          match w.handlers[key.incident]
          case Walking(_, i) => i <= o || i > key.ordinal
          case Cleared(_, i) => i <= o || i > key.ordinal
          case Returned(_, i, _) => i <= o || i > key.ordinal
          case Undoing(_, _) => true
          case Undone(_, _, _) => true)
  }

  lemma BlockedInWalk(w: World, inc: IncidentId, flag: bool, key: Key, o: nat)
    requires Blocked(w, key, o) && JobsAtHome(w) && !HasSuccess(w.ledger, key.(ordinal := o))
    ensures Blocked(Checking(w, inc), key, o) && Blocked(Tripping(w, inc), key, o)
    ensures Blocked(Applying(w, inc, flag), key, o)
  {
    hide Runnable;
  }

  lemma BlockedInWrite(w: World, inc: IncidentId, raises: bool, key: Key, o: nat)
    requires Blocked(w, key, o) && JobsAtHome(w) && !Loses(w, Write(inc, raises))
    ensures Blocked(Writing(w, inc, raises), key, o)
  {
    assert HasRow(w.ledger, key.(ordinal := o));
  }

  lemma BlockedInUndo(w: World, inc: IncidentId, ok: bool, key: Key, o: nat)
    requires Blocked(w, key, o)
    ensures Blocked(UndoOne(w, inc, ok), key, o) && Blocked(AuditingUndo(w, inc), key, o)
  {
    hide RollbackOf;
  }

  lemma BlockedElsewhere(w: World, s: Step, key: Key, o: nat)
    requires Blocked(w, key, o) && !s.Check? && !s.Trip? && !s.Apply? && !s.Write? && !s.Undo? && !s.AuditUndo?
    ensures Blocked(Next(w, s), key, o)
  {
    hide Accepts, Checking, Tripping, Applying, Writing, UndoOne, AuditingUndo;
  }

  lemma FailedIsNoSuccess(w: World, key: Key)
    requires Inv(w) && LedgerRow(key, false) in w.ledger
    ensures !HasSuccess(w.ledger, key)
  {
    hide PlansKnown, MessagesGenuine, DecisionsKnown, HandlersSound, AuditMatches, LogJustified, StatusSound;
    var i :| 0 <= i < |w.ledger| && w.ledger[i] == LedgerRow(key, false);
    forall j | 0 <= j < |w.ledger|
      ensures w.ledger[j] != LedgerRow(key, true)
    {
      assert j == i || w.ledger[j].key != w.ledger[i].key;
    }
  }

  lemma NextBlocked(w: World, s: Step, key: Key, o: nat)
    requires Inv(w) && Blocked(w, key, o) && !Loses(w, s)
    ensures Blocked(Next(w, s), key, o)
  {
    hide Inv, Blocked, Loses, HasSuccess, JobsAtHome;
    hide Proposing, Deciding, Injecting, Minting, Delivering, Checking, Tripping, Applying, Writing, UndoOne, AuditingUndo;
    InvMeansAtHome(w);
    BlockedByFailed(w, key, o);
    FailedIsNoSuccess(w, key.(ordinal := o));
    match s
    case Check(inc) => BlockedInWalk(w, inc, true, key, o);
    case Trip(inc) => BlockedInWalk(w, inc, true, key, o);
    case Apply(inc, ok) => BlockedInWalk(w, inc, ok, key, o);
    case Write(inc, raises) => BlockedInWrite(w, inc, raises, key, o);
    case Undo(inc, ok) => BlockedInUndo(w, inc, ok, key, o);
    case AuditUndo(inc) => BlockedInUndo(w, inc, true, key, o);
    case _ => BlockedElsewhere(w, s, key, o);
  }

  lemma BlockedByFailed(w: World, key: Key, o: nat)
    requires Blocked(w, key, o)
    ensures LedgerRow(key.(ordinal := o), false) in w.ledger
  {
  }

  lemma BlockedCallIsOther(w: World, s: Step, key: Key, o: nat)
    requires JobsAtHome(w) && |Next(w, s).log| > |w.log| && IsSuccessUnder(Next(w, s).log[|w.log|], key)
    ensures !Blocked(w, key, o)
  {
    hide Proposing, Deciding, Injecting, Minting, Delivering, Checking, Tripping, Writing, UndoOne, AuditingUndo;
    NextIsQuiet(w, s);
    assert s.Apply?;
  }

  lemma BlockedMakesNoCall(w: World, s: Step, key: Key, o: nat)
    requires Inv(w) && Blocked(w, key, o)
    ensures Successes(Next(w, s).log, key) == Successes(w.log, key)
  {
    hide Inv, Blocked, Successes, IsSuccessUnder, Next, JobsAtHome;
    var w' := Next(w, s);
    NextIsQuiet(w, s);
    InvMeansAtHome(w);
    if |w'.log| > |w.log| {
      assert w'.log == w.log + [w'.log[|w.log|]];
      SuccessesSnoc(w.log, w'.log[|w.log|], key);
      if IsSuccessUnder(w'.log[|w.log|], key) {
        BlockedCallIsOther(w, s, key, o);
      }
    } else {
      assert w'.log == w.log;
    }
  }

  /** As long as nothing is lost, no handler gets past the failed step. */
  lemma {:induction false} BlockedIsFinal(steps: seq<Step>, more: seq<Step>, key: Key, o: nat)
    requires Blocked(Run(steps), key, o) && LosesOnlyBefore(Run(steps), more, 0)
    ensures Blocked(Run(steps + more), key, o)
    ensures Successes(Run(steps + more).log, key) == Successes(Run(steps).log, key)
  {
    hide Run, RunOf, Next, Blocked, Successes, Inv, LosesBefore;
    if more == [] {
      assert steps + more == steps;
    } else {
      var fewer, s := more[..|more| - 1], more[|more| - 1];
      LosesNothingMore(Run(steps), more);
      BlockedIsFinal(steps, fewer, key, o);
      RunKeeps(steps + fewer);
      RunSnoc(steps, more);
      RunContinues(steps, fewer);
      NextBlocked(Run(steps + fewer), s, key, o);
      BlockedMakesNoCall(Run(steps + fewer), s, key, o);
    }
  }

  lemma LosesNothingMore(w: World, more: seq<Step>)
    requires more != [] && LosesOnlyBefore(w, more, 0)
    ensures LosesOnlyBefore(w, more[..|more| - 1], 0) && !Loses(RunOf(more[..|more| - 1], w), more[|more| - 1])
  {
    hide RunOf, Loses;
    var fewer := more[..|more| - 1];
    forall i | 0 <= i < |fewer|
      ensures LosesBefore(RunOf(fewer[..i], w), fewer[i], 0)
    {
      assert fewer[..i] == more[..i];
      assert LosesBefore(RunOf(more[..i], w), more[i], 0);
    }
    assert LosesBefore(RunOf(fewer, w), more[|more| - 1], 0);
  }

  lemma LostAndBlocked(w: World, s: Step, o: nat)
    requires Inv(w) && Loses(w, s) && o < KeyAtStake(w, s.incident).ordinal
    requires Failed(w.ledger, w.handlers[s.incident].job.KeyOf(o))
    ensures Blocked(Next(w, s), KeyAtStake(w, s.incident), o)
  {
    hide HandlerSound, LedgerSound, LogJustified, DecisionsKnown, MessagesGenuine;
    hide Next;
    LossChangesNothing(w, s);
    JobOfHandler(w, s.incident, w.handlers[s.incident]);
    var key := w.handlers[s.incident].job.KeyOf(o);
    var r :| r in w.ledger && r.key == key;
    assert r == LedgerRow(key, r.success);
    assert LedgerRow(key, false) in w.ledger;
  }

  // ----- Exactly when -----

  /**
    Wherever a run loses a success, the same call can be made with success again in some continuation
    exactly if the plan's row still exists then; and in one that loses nothing more exactly if besides
    the ledger holds no earlier step of the plan as failed, since that step has to be called again on
    the way, and its success cannot be written.
  */
  lemma {:induction false} LostIsRepeatedIff(steps: seq<Step>, s: Step)
    requires Loses(Run(steps), s)
    ensures AtStake(Run(steps), s.incident)
    ensures var w, lost := Run(steps), Run(steps + [s]);
      var key := KeyAtStake(w, s.incident);
      && (key.plan in w.status <==> exists more :: Repeated(steps + [s], more, key))
      && (key.plan in w.status && !FailedEarlier(w.ledger, w.handlers[s.incident].job, key.ordinal) <==>
          exists more :: Repeated(steps + [s], more, key) && LosesOnlyBefore(lost, more, 0))
  {
    hide Run, RunOf, Next, Inv, Loses, Successes, GoneAndPast, Backed, LosesOnlyBefore, Failed, Blocked;
    var w := Run(steps);
    LossIsAtStake(w, s);
    RunKeeps(steps);
    RunBacked(steps);
    RunSnocOne(steps, s);
    var key, job := KeyAtStake(w, s.incident), w.handlers[s.incident].job;
    if key.plan in w.status {
      var more := Repeats(w, s);
      RunContinues(steps + [s], more);
      assert Repeated(steps + [s], more, key);
    } else {
      LostAndGone(w, s);
      forall more
        ensures !Repeated(steps + [s], more, key)
      {
        GoneIsFinal(steps + [s], more, key);
      }
    }
    if FailedEarlier(w.ledger, job, key.ordinal) {
      var o: nat :| o < key.ordinal && Failed(w.ledger, job.KeyOf(o));
      LostAndBlocked(w, s, o);
      forall more | LosesOnlyBefore(Run(steps + [s]), more, 0)
        ensures !Repeated(steps + [s], more, key)
      {
        BlockedIsFinal(steps + [s], more, key, o);
      }
    }
  }

  /** The continuation makes another successful call under the key. */
  predicate Repeated(steps: seq<Step>, more: seq<Step>, key: Key) {
    Successes(Run(steps + more).log, key) > Successes(Run(steps).log, key)
  }

  /**
    A run that loses nothing brings the plan of this one step, with the catalog, to where the runtime
    has answered with success for the first time; the next step loses that, and then, without another
    loss, the step is applied with success once more under the same key.
  */
  ghost predicate AppliedTwice(steps: seq<Step>, s: Step, more: seq<Step>, key: Key, step: PlanStep, catalog: Catalog) {
    var w := Run(steps);
    && LosesNothing(steps) && Loses(w, s) && LosesOnlyBefore(Run(steps + [s]), more, 0)
    && AtStake(w, key.incident) && s.incident == key.incident && KeyAtStake(w, key.incident) == key
    && w.handlers[key.incident].job.steps == [step] && w.handlers[key.incident].job.catalog == catalog
    && Successes(Run(steps + [s]).log, key) == 1 && Successes(Run(steps + [s] + more).log, key) >= 2
  }

  /** Both kinds of loss happen, for every runnable step: by one crash, and by one unit of work that fails. */
  lemma CrashCanApplyTwice(step: PlanStep, catalog: Catalog)
    requires Runnable(catalog, step)
    ensures exists steps: seq<Step>, crashed: seq<Step>, failed: seq<Step>, key: Key ::
      && AppliedTwice(steps, Crash(key.incident), crashed, key, step, catalog)
      && AppliedTwice(steps, Write(key.incident, true), failed, key, step, catalog)
  {
    hide Run, RunOf, Runnable, AppliedTwice, LosesNothing;
    var steps := UpToTheCall(step, catalog);
    var key := Key(1, 7, 0, 5);
    var crashed := AppliedOnceMore(steps, Crash(1), key, step, catalog);
    var failed := AppliedOnceMore(steps, Write(1, true), key, step, catalog);
    assert key.incident == 1;
    assert AppliedTwice(steps, Crash(key.incident), crashed, key, step, catalog)
      && AppliedTwice(steps, Write(key.incident, true), failed, key, step, catalog);
  }

  lemma AppliedOnceMore(steps: seq<Step>, s: Step, key: Key, step: PlanStep, catalog: Catalog) returns (more: seq<Step>)
    requires LosesNothing(steps) && key == Key(1, 7, 0, 5) && (s == Crash(1) || s == Write(1, true))
    requires Run(steps).handlers == map[1 := Returned(Job(1, 7, 5, [step], catalog), 0, true)] && 7 in Run(steps).status
    requires Successes(Run(steps).log, key) == 1
    ensures AppliedTwice(steps, s, more, key, step, catalog)
  {
    hide Run, RunOf, Next, Inv, Successes, LosesNothing, LosesOnlyBefore;
    LostIsRepeatedIff(steps, s);
    LossKeepsLog(Run(steps), s);
    RunSnocOne(steps, s);
    assert !FailedEarlier(Run(steps).ledger, Job(1, 7, 5, [step], catalog), 0);
    more :| Repeated(steps + [s], more, key) && LosesOnlyBefore(Run(steps + [s]), more, 0);
  }

  lemma LossKeepsLog(w: World, s: Step)
    requires Loses(w, s)
    ensures Next(w, s).log == w.log
  {
    LossChangesNothing(w, s);
  }

  /** A plan with this one step, approved, delivered and called. */
  lemma UpToTheCall(step: PlanStep, catalog: Catalog) returns (steps: seq<Step>)
    requires Runnable(catalog, step)
    ensures LosesNothing(steps)
    ensures var w := Run(steps);
      && w.handlers == map[1 := Returned(Job(1, 7, 5, [step], catalog), 0, true)] && 7 in w.status
      && Successes(w.log, Key(1, 7, 0, 5)) == 1
  {
    hide RunOf, Run, Runnable;
    var record := Record(7, 1, Approve, "ops", Some(5));
    var m := MessageOf(record);
    var job := Job(1, 7, 5, [step], catalog);
    var approving := [OpenIncident(1, Some(5)), Propose(7, 1, [step]), Decide(7, Approve, "ops", false), Publish(m)];
    var calling := [Deliver(m, catalog), Check(1), Apply(1, true)];
    ApprovedWorld([step]);
    var w := RunOf(approving, INITIAL);
    Calls(w, m, job, step);
    RunOfAppends(approving, calling, INITIAL);
    steps := approving + calling;
    RunIsRunOf(steps);
    SuccessesSnoc([Decided(record)], ForwardCall(job, 0, true), Key(1, 7, 0, 5));
    SuccessesSnoc([], Decided(record), Key(1, 7, 0, 5));
    assert [] + [Decided(record)] == [Decided(record)];
  }

  lemma Calls(w: World, m: Message, job: Job, step: PlanStep)
    requires m in w.topic && w.handlers == map[] && Accepts(w, m) && job == JobOf(w, m, job.catalog)
    requires job.steps == [step] && Runnable(job.catalog, step) && w.ledger == []
    ensures var w' := RunOf([Deliver(m, job.catalog), Check(m.incident), Apply(m.incident, true)], w);
      && w'.handlers == map[m.incident := Returned(job, 0, true)] && m.plan in w'.status
      && w'.log == w.log + [ForwardCall(job, 0, true)]
  {
    hide Next, Accepts, Runnable, RunOf;
    RunOfThree(Deliver(m, job.catalog), Check(m.incident), Apply(m.incident, true), w);
    var w1 := w.(status := w.status[m.plan := Executing], handlers := map[m.incident := Walking(job, 0)]);
    DeliverAlone(w, m, job, job.catalog);
    CheckAlone(w1, m.incident, job);
    ApplyAlone(w1.(handlers := map[m.incident := Cleared(job, 0)]), m.incident, job);
  }
}
