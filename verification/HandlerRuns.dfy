/**
  Runs that a handler can really make: from any state in which a message is accepted, the steps of
  the system that walk, fail and compensate as the calls of a run say.
*/
module HandlerRuns {
  import opened Options
  import opened Remediation
  import opened RemediationRuns
  import opened Compensation

  /** The two worlds differ at most in the handler of one incident, the ledger, the audit table and the log. */
  predicate SameOtherwise(w: World, w': World, inc: IncidentId) {
    && w'.incidents == w.incidents && w'.plans == w.plans && w'.status == w.status
    && w'.unsent == w.unsent && w'.topic == w.topic && w'.minted == w.minted
    && w'.handlers - {inc} == w.handlers - {inc}
  }

  predicate At(w: World, inc: IncidentId, h: Handler) {
    inc in w.handlers && w.handlers[inc] == h
  }

  /** Which of the first k steps the ledger lets a handler skip. */
  function Skips(ledger: seq<LedgerRow>, job: Job, k: nat): seq<bool> {
    seq(k, i requires 0 <= i < k => HasSuccess(ledger, job.KeyOf(i)))
  }

  /** The ledger holds the key, but not as a success. */
  predicate Failed(ledger: seq<LedgerRow>, key: Key) {
    HasRow(ledger, key) && !HasSuccess(ledger, key)
  }

  /** The ledger holds one of the first k steps as failed. */
  ghost predicate FailedEarlier(ledger: seq<LedgerRow>, job: Job, k: nat) {
    exists o: nat :: o < k && Failed(ledger, job.KeyOf(o))
  }

  predicate AllRunnable(job: Job, k: nat)
    requires k <= |job.steps|
  {
    forall o :: 0 <= o < k ==> Runnable(job.catalog, job.steps[o])
  }

  /** The rows of the first k steps are those that were there and successes for the others; beyond, nothing changes. */
  ghost predicate LedgerWalked(before: seq<LedgerRow>, now: seq<LedgerRow>, job: Job, k: nat) {
    && (forall o: nat :: o < k ==>
          (HasSuccess(now, job.KeyOf(o)) <==> HasSuccess(before, job.KeyOf(o)) || !HasRow(before, job.KeyOf(o))))
    && (forall o: nat :: k <= o ==>
          (HasSuccess(now, job.KeyOf(o)) <==> HasSuccess(before, job.KeyOf(o)))
          && (HasRow(now, job.KeyOf(o)) <==> HasRow(before, job.KeyOf(o))))
  }

  lemma RowAppended(ledger: seq<LedgerRow>, job: Job, i: nat, ok: bool, o: nat)
    ensures var now := ledger + [LedgerRow(job.KeyOf(i), ok)];
      && (HasSuccess(now, job.KeyOf(o)) <==> HasSuccess(ledger, job.KeyOf(o)) || (ok && o == i))
      && (HasRow(now, job.KeyOf(o)) <==> HasRow(ledger, job.KeyOf(o)) || o == i)
  {
    var row := LedgerRow(job.KeyOf(i), ok);
    assert row in ledger + [row];
    if HasRow(ledger, job.KeyOf(o)) {
      var r :| r in ledger && r.key == job.KeyOf(o);
      assert r in ledger + [row];
    }
  }

  // ----- One step of the plan -----

  lemma RunOfOne(s: Step, w: World)
    ensures RunOf([s], w) == Next(w, s)
  {
    assert [s][..0] == [];
    assert RunOf([], w) == w;
  }

  lemma RunOfThree(a: Step, b: Step, c: Step, w: World)
    ensures RunOf([a, b, c], w) == Next(Next(Next(w, a), b), c)
  {
    hide Next;
    RunOfOne(a, w);
    RunOfOne(b, Next(w, a));
    RunOfOne(c, Next(Next(w, a), b));
    RunOfAppends([a], [b], w);
    RunOfAppends([a, b], [c], w);
    assert [a] + [b] == [a, b] && [a, b] + [c] == [a, b, c];
  }

  lemma CheckClears(w: World, inc: IncidentId, job: Job, i: nat)
    requires At(w, inc, Walking(job, i)) && i < |job.steps| && Runnable(job.catalog, job.steps[i])
    ensures Next(w, Check(inc))
         == w.(handlers := w.handlers[inc := if HasSuccess(w.ledger, job.KeyOf(i)) then Walking(job, i + 1) else Cleared(job, i)])
  {
  }

  lemma ApplyReturns(w: World, inc: IncidentId, job: Job, i: nat, ok: bool)
    requires At(w, inc, Cleared(job, i)) && i < |job.steps|
    ensures Next(w, Apply(inc, ok))
         == w.(handlers := w.handlers[inc := Returned(job, i, ok)], log := w.log + [ForwardCall(job, i, ok)])
  {
  }

  lemma WriteContinues(w: World, inc: IncidentId, job: Job, i: nat, ok: bool)
    requires At(w, inc, Returned(job, i, ok))
    ensures var w' := Next(w, Write(inc, false));
      && w'.handlers == w.handlers[inc := Continued(job, i, ok)] && w'.log == w.log
      && w'.incidents == w.incidents && w'.plans == w.plans && w'.status == w.status
      && w'.unsent == w.unsent && w'.topic == w.topic && w'.minted == w.minted
      && w'.ledger == if HasRow(w.ledger, job.KeyOf(i)) then w.ledger else w.ledger + [LedgerRow(job.KeyOf(i), ok)]
  {
    hide HasRow;
  }

  /** A step that the ledger does not let skip is called, with either answer, and written down. */
  lemma CallStep(w: World, inc: IncidentId, job: Job, i: nat, ok: bool) returns (more: seq<Step>)
    requires At(w, inc, Walking(job, i)) && i < |job.steps| && Runnable(job.catalog, job.steps[i])
    requires !HasSuccess(w.ledger, job.KeyOf(i))
    ensures var w' := RunOf(more, w);
      && SameOtherwise(w, w', inc) && At(w', inc, Continued(job, i, ok))
      && w'.log == w.log + [ForwardCall(job, i, ok)]
      && w'.ledger == if HasRow(w.ledger, job.KeyOf(i)) then w.ledger else w.ledger + [LedgerRow(job.KeyOf(i), ok)]
    ensures LosesOnlyBefore(w, more, if HasRow(w.ledger, job.KeyOf(i)) then i + 1 else 0)
  {
    hide LosesOnlyBefore;
    hide Next, HasSuccess, HasRow, Runnable, RunOf;
    more := [Check(inc), Apply(inc, ok), Write(inc, false)];
    RunOfThree(Check(inc), Apply(inc, ok), Write(inc, false), w);
    CheckClears(w, inc, job, i);
    ApplyReturns(Next(w, Check(inc)), inc, job, i, ok);
    WriteContinues(Next(Next(w, Check(inc)), Apply(inc, ok)), inc, job, i, ok);
    var n := if HasRow(w.ledger, job.KeyOf(i)) then i + 1 else 0;
    OneLoss(w, Check(inc), n);
    OneLoss(Next(w, Check(inc)), Apply(inc, ok), n);
    OneLoss(Next(Next(w, Check(inc)), Apply(inc, ok)), Write(inc, false), n);
    RunOfOne(Check(inc), w);
    RunOfOne(Apply(inc, ok), Next(w, Check(inc)));
    RunOfAppends([Check(inc)], [Apply(inc, ok)], w);
    LossesAppend(w, [Check(inc)], [Apply(inc, ok)], n);
    LossesAppend(w, [Check(inc)] + [Apply(inc, ok)], [Write(inc, false)], n);
    assert more == [Check(inc)] + [Apply(inc, ok)] + [Write(inc, false)];
  }

  lemma PassStep(w: World, inc: IncidentId, job: Job, i: nat) returns (more: seq<Step>)
    requires At(w, inc, Walking(job, i)) && i < |job.steps| && Runnable(job.catalog, job.steps[i])
    ensures var w' := RunOf(more, w);
      && SameOtherwise(w, w', inc) && At(w', inc, Walking(job, i + 1))
      && w'.log == w.log + (if HasSuccess(w.ledger, job.KeyOf(i)) then [] else [ForwardCall(job, i, true)])
      && w'.ledger == if HasRow(w.ledger, job.KeyOf(i)) || HasSuccess(w.ledger, job.KeyOf(i)) then w.ledger
                      else w.ledger + [LedgerRow(job.KeyOf(i), true)]
    ensures LosesOnlyBefore(w, more, if Failed(w.ledger, job.KeyOf(i)) then i + 1 else 0)
  {
    hide Next, HasSuccess, HasRow, Runnable, RunOf, LosesOnlyBefore;
    if HasSuccess(w.ledger, job.KeyOf(i)) {
      more := [Check(inc)];
      RunOfOne(Check(inc), w);
      CheckClears(w, inc, job, i);
      OneLoss(w, Check(inc), 0);
    } else {
      more := CallStep(w, inc, job, i, true);
    }
  }

  // ----- The walk -----

  ghost predicate Walked(w: World, w': World, inc: IncidentId, job: Job, k: nat)
    requires k <= |job.steps|
  {
    && SameOtherwise(w, w', inc) && At(w', inc, Walking(job, k))
    && w'.log == w.log + WalkEvents(job, Skips(w.ledger, job, k))
    && LedgerWalked(w.ledger, w'.ledger, job, k)
  }

  lemma {:induction false} Walks(w: World, inc: IncidentId, job: Job, k: nat) returns (more: seq<Step>)
    requires At(w, inc, Walking(job, 0)) && k <= |job.steps| && AllRunnable(job, k)
    ensures Walked(w, RunOf(more, w), inc, job, k)
    ensures LosesOnlyBefore(w, more, if FailedEarlier(w.ledger, job, k) then k else 0)
    decreases k
  {
    hide RunOf, Runnable, HasSuccess, HasRow, LosesBefore, LosesOnlyBefore, FailedEarlier;
    if k == 0 {
      more := [];
      NoSteps(w);
      NothingLost(w);
    } else {
      var first := Walks(w, inc, job, k - 1);
      var w1 := RunOf(first, w);
      var second := PassStep(w1, inc, job, k - 1);
      more := first + second;
      RunOfAppends(first, second, w);
      FailedEarlierNext(w.ledger, job, k - 1);
      var n := if FailedEarlier(w.ledger, job, k) then k else 0;
      LossesGrow(w, first, if FailedEarlier(w.ledger, job, k - 1) then k - 1 else 0, n);
      LossesGrow(w1, second, if Failed(w1.ledger, job.KeyOf(k - 1)) then k else 0, n);
      LossesAppend(w, first, second, n);
      LedgerPasses(w.ledger, w1.ledger, RunOf(more, w).ledger, job, k - 1);
      var skips := Skips(w.ledger, job, k);
      assert skips[..k - 1] == Skips(w.ledger, job, k - 1);
    }
  }

  lemma NothingLost(w: World)
    ensures LosesOnlyBefore(w, [], 0)
  {
  }

  lemma FailedEarlierNext(ledger: seq<LedgerRow>, job: Job, k: nat)
    ensures FailedEarlier(ledger, job, k + 1) <==> FailedEarlier(ledger, job, k) || Failed(ledger, job.KeyOf(k))
  {
    hide Failed;
    if FailedEarlier(ledger, job, k + 1) {
      var o: nat :| o < k + 1 && Failed(ledger, job.KeyOf(o));
      assert o == k || o < k;
    }
  }

  lemma NoSteps(w: World)
    ensures RunOf([], w) == w
  {
  }

  lemma LedgerPasses(before: seq<LedgerRow>, now: seq<LedgerRow>, later: seq<LedgerRow>, job: Job, i: nat)
    requires LedgerWalked(before, now, job, i)
    requires later == if HasRow(now, job.KeyOf(i)) || HasSuccess(now, job.KeyOf(i)) then now
                      else now + [LedgerRow(job.KeyOf(i), true)]
    ensures LedgerWalked(before, later, job, i + 1)
  {
    hide HasSuccess, HasRow;
    forall o: nat
      ensures later != now ==>
        && (HasSuccess(later, job.KeyOf(o)) <==> HasSuccess(now, job.KeyOf(o)) || o == i)
        && (HasRow(later, job.KeyOf(o)) <==> HasRow(now, job.KeyOf(o)) || o == i)
    {
      RowAppended(now, job, i, true, o);
    }
    SuccessIsRow(now, job.KeyOf(i));
  }

  lemma SuccessIsRow(ledger: seq<LedgerRow>, key: Key)
    ensures HasSuccess(ledger, key) ==> HasRow(ledger, key)
  {
    if HasSuccess(ledger, key) {
      assert LedgerRow(key, true) in ledger;
    }
  }

  // ----- The compensation -----

  lemma PassUndone(w: World, inc: IncidentId, job: Job, k: nat)
    requires At(w, inc, Undoing(job, k)) && 0 < k <= |job.steps| && RollbackAt(job, k - 1) == None
    ensures Next(w, Undo(inc, true)) == w.(handlers := w.handlers[inc := Undoing(job, k - 1)])
  {
  }

  lemma CallUndone(w: World, inc: IncidentId, job: Job, k: nat)
    requires At(w, inc, Undoing(job, k)) && 0 < k <= |job.steps| && RollbackAt(job, k - 1).Some?
    ensures var w' := Next(Next(w, Undo(inc, true)), AuditUndo(inc));
      && SameOtherwise(w, w', inc) && At(w', inc, Undoing(job, k - 1))
      && w'.ledger == w.ledger && w'.log == w.log + [UndoCallOk(job, k - 1)]
  {
  }

  lemma EndUndoing(w: World, inc: IncidentId, job: Job)
    requires At(w, inc, Undoing(job, 0))
    ensures Next(w, Undo(inc, true)) == w.(handlers := w.handlers - {inc})
  {
  }

  /** One round of the compensation, its call succeeding. */
  lemma CompensatesStep(w: World, inc: IncidentId, job: Job, k: nat) returns (more: seq<Step>)
    requires At(w, inc, Undoing(job, k)) && 0 < k <= |job.steps|
    ensures var w' := RunOf(more, w);
      && SameOtherwise(w, w', inc) && At(w', inc, Undoing(job, k - 1)) && w'.ledger == w.ledger
      && w'.log == w.log + if RollbackAt(job, k - 1) == None then [] else [UndoCallOk(job, k - 1)]
  {
    hide RunOf, Next, RollbackAt;
    RunOfOne(Undo(inc, true), w);
    if RollbackAt(job, k - 1) == None {
      more := [Undo(inc, true)];
      PassUndone(w, inc, job, k);
    } else {
      more := [Undo(inc, true)] + [AuditUndo(inc)];
      RunOfAppends([Undo(inc, true)], [AuditUndo(inc)], w);
      RunOfOne(AuditUndo(inc), Next(w, Undo(inc, true)));
      CallUndone(w, inc, job, k);
    }
  }

  lemma UndoEventsFirst(job: Job, k: nat, oks: seq<bool>)
    requires 0 < k <= |job.steps| && k <= |oks| && AllOk(oks)
    ensures UndoEvents(job, k, oks)
         == (if RollbackAt(job, k - 1) == None then [] else [UndoCallOk(job, k - 1)]) + UndoEvents(job, k - 1, oks)
  {
  }

  /** A compensation in which every call succeeds. */
  lemma {:induction false} Compensates(w: World, inc: IncidentId, job: Job, k: nat, oks: seq<bool>)
      returns (more: seq<Step>)
    requires At(w, inc, Undoing(job, k)) && k <= |job.steps| && k <= |oks| && AllOk(oks)
    ensures var w' := RunOf(more, w);
      && SameOtherwise(w, w', inc) && inc !in w'.handlers
      && w'.ledger == w.ledger && w'.log == w.log + UndoEvents(job, k, oks)
    decreases k
  {
    hide RunOf, Next, RollbackAt, AllOk, UndoEvents, SameOtherwise;
    if k == 0 {
      more := CompensatesNothing(w, inc, job, oks);
    } else {
      var first := CompensatesStep(w, inc, job, k);
      var rest := Compensates(RunOf(first, w), inc, job, k - 1, oks);
      more := first + rest;
      RunOfAppends(first, rest, w);
      UndoEventsFirst(job, k, oks);
      SameThroughout(w, RunOf(first, w), RunOf(more, w), inc);
    }
  }

  lemma SameThroughout(a: World, b: World, c: World, inc: IncidentId)
    requires SameOtherwise(a, b, inc) && SameOtherwise(b, c, inc)
    ensures SameOtherwise(a, c, inc)
  {
  }

  lemma CompensatesNothing(w: World, inc: IncidentId, job: Job, oks: seq<bool>) returns (more: seq<Step>)
    requires At(w, inc, Undoing(job, 0))
    ensures var w' := RunOf(more, w);
      && SameOtherwise(w, w', inc) && inc !in w'.handlers
      && w'.ledger == w.ledger && w'.log == w.log + UndoEvents(job, 0, oks)
  {
    hide RunOf, Next;
    more := [Undo(inc, true)];
    RunOfOne(Undo(inc, true), w);
    EndUndoing(w, inc, job);
  }

  // ----- Whole deliveries -----

  lemma DeliveryStarts(w: World, m: Message, catalog: Catalog)
    requires m in w.topic && m.incident !in w.handlers && Accepts(w, m)
    ensures Next(w, Deliver(m, catalog))
         == w.(status := w.status[m.plan := Executing],
               handlers := w.handlers[m.incident := Walking(JobOf(w, m, catalog), 0)])
  {
  }

  /** A message that is accepted now is accepted as long as its plan row is there. */
  lemma AcceptedAgain(w: World, w': World, m: Message, catalog: Catalog)
    requires Accepts(w, m)
    requires w'.incidents == w.incidents && w'.plans == w.plans && m.plan in w'.status
    ensures Accepts(w', m) && JobOf(w', m, catalog) == JobOf(w, m, catalog)
  {
  }

  /** What a delivery that fails at step k leaves: its calls in the log, its rows, and no handler. */
  ghost predicate FailedAt(w: World, w': World, m: Message, job: Job, k: nat, oks: seq<bool>)
    requires k < |job.steps| && k <= |oks|
  {
    && w'.incidents == w.incidents && w'.plans == w.plans && m in w'.topic && m.plan in w'.status
    && m.incident !in w'.handlers
    && w'.log == w.log + FailedRun(job, Skips(w.ledger, job, k), true, oks)
    && LedgerFailed(w.ledger, w'.ledger, job, k)
  }

  ghost predicate LedgerFailed(before: seq<LedgerRow>, now: seq<LedgerRow>, job: Job, k: nat) {
    && !HasSuccess(now, job.KeyOf(k))
    && forall o: nat :: o < k ==>
         (HasSuccess(now, job.KeyOf(o)) <==> HasSuccess(before, job.KeyOf(o)) || !HasRow(before, job.KeyOf(o)))
  }

  /** Any accepted message can be delivered so that its runnable step k, not yet a success, fails. */
  lemma Fails(w: World, m: Message, catalog: Catalog, k: nat, oks: seq<bool>) returns (more: seq<Step>)
    requires m in w.topic && m.incident !in w.handlers && Accepts(w, m)
    requires var job := JobOf(w, m, catalog);
      k < |job.steps| && AllRunnable(job, k + 1) && !HasSuccess(w.ledger, job.KeyOf(k))
    requires k <= |oks| && AllOk(oks)
    ensures FailedAt(w, RunOf(more, w), m, JobOf(w, m, catalog), k, oks)
  {
    hide RunOf, Next, Accepts, Runnable, HasSuccess, HasRow, AllOk, WalkEvents, UndoEvents;
    var inc, job := m.incident, JobOf(w, m, catalog);
    var start := [Deliver(m, catalog)];
    RunOfOne(Deliver(m, catalog), w);
    DeliveryStarts(w, m, catalog);
    var w1 := RunOf(start, w);
    assert AllRunnable(job, k);
    var walk := Walks(w1, inc, job, k);
    var w2 := RunOf(walk, w1);
    var call := CallStep(w2, inc, job, k, false);
    var w3 := RunOf(call, w2);
    var undo := Compensates(w3, inc, job, k, oks);
    more := start + walk + call + undo;
    RunOfAppends(start, walk, w);
    RunOfAppends(start + walk, call, w);
    RunOfAppends(start + walk + call, undo, w);
    FailedRow(w.ledger, w2.ledger, w3.ledger, job, k);
  }

  lemma FailedRow(before: seq<LedgerRow>, walked: seq<LedgerRow>, now: seq<LedgerRow>, job: Job, k: nat)
    requires LedgerWalked(before, walked, job, k) && !HasSuccess(before, job.KeyOf(k))
    requires now == if HasRow(walked, job.KeyOf(k)) then walked else walked + [LedgerRow(job.KeyOf(k), false)]
    ensures LedgerFailed(before, now, job, k)
  {
    hide HasSuccess, HasRow;
    forall o: nat
      ensures now != walked ==> (HasSuccess(now, job.KeyOf(o)) <==> HasSuccess(walked, job.KeyOf(o)))
    {
      RowAppended(walked, job, k, false, o);
    }
  }

  // ----- A redelivery after a compensated run -----

  /** The first k steps of the job have no ledger rows yet, and the message can be delivered. */
  ghost predicate FirstDelivery(w: World, m: Message, catalog: Catalog, k: nat) {
    && m in w.topic && m.incident !in w.handlers && Accepts(w, m)
    && var job := JobOf(w, m, catalog);
       && k < |job.steps| && AllRunnable(job, k + 1)
       && forall o: nat :: o <= k ==> !HasRow(w.ledger, job.KeyOf(o))
  }

  /**
    In every state in which a message is accepted for the first time, two deliveries of it can fail at
    step k, all rollbacks succeeding: the first applies and undoes the k steps before it, the second
    skips them all and undoes them once more.
  */
  lemma {:induction false} RedeliveryUndoesAgain(steps: seq<Step>, m: Message, catalog: Catalog, k: nat, oks: seq<bool>)
      returns (once: seq<Step>, again: seq<Step>)
    requires FirstDelivery(Run(steps), m, catalog, k) && k <= |oks| && AllOk(oks)
    ensures var w, job := Run(steps), JobOf(Run(steps), m, catalog);
      && k < |job.steps|
      && Run(steps + once).log == w.log + FailedRun(job, seq(k, i => false), true, oks)
      && Run(steps + once + again).log == Run(steps + once).log + [ForwardCall(job, k, false)] + UndoEvents(job, k, oks)
  {
    hide Run, RunOf, Accepts, HasSuccess, HasRow, AllOk, UndoEvents, Runnable;
    var w, job := Run(steps), JobOf(Run(steps), m, catalog);
    forall o: nat | o <= k
      ensures !HasSuccess(w.ledger, job.KeyOf(o))
    {
      SuccessIsRow(w.ledger, job.KeyOf(o));
    }
    once := Fails(w, m, catalog, k, oks);
    var w1 := RunOf(once, w);
    AcceptedAgain(w, w1, m, catalog);
    again := Fails(w1, m, catalog, k, oks);
    assert Skips(w.ledger, job, k) == seq(k, i => false);
    var skips := Skips(w1.ledger, job, k);
    AllSkipped(job, skips);
    RunContinues(steps, once);
    RunContinues(steps, once + again);
    RunOfAppends(once, again, w);
    assert steps + once + again == steps + (once + again);
  }

  lemma {:induction false} AllSkipped(job: Job, skipped: seq<bool>)
    requires |skipped| <= |job.steps| && forall i :: 0 <= i < |skipped| ==> skipped[i]
    ensures WalkEvents(job, skipped) == []
  {
    if skipped == [] {
    } else {
      AllSkipped(job, skipped[..|skipped| - 1]);
    }
  }

  /** A counter that "up" raises and "down" lowers: every rollback inverts its step. */
  function Counter(action: string, params: Params, s: int): int {
    if action == "up" then s + 1 else if action == "down" then s - 1 else s
  }

  /** For the counter: the second delivery leaves it one lower than it was before the first. */
  lemma CounterEndsLower(steps: seq<Step>, m: Message, catalog: Catalog, s: int)
      returns (once: seq<Step>, again: seq<Step>)
    requires FirstDelivery(Run(steps), m, catalog, 1)
    requires JobOf(Run(steps), m, catalog).steps[0].action == "up"
    requires RollbackAt(JobOf(Run(steps), m, catalog), 0) == Some("down")
    ensures var before := Replay(Counter, Run(steps).log, s);
      && Replay(Counter, Run(steps + once).log, s) == before
      && Replay(Counter, Run(steps + once + again).log, s) == before - 1
    ensures var w, job := Run(steps), JobOf(Run(steps), m, catalog);
      && Run(steps + once).log == w.log + FailedRun(job, [false], true, [true])
      && Run(steps + once + again).log == Run(steps + once).log + [ForwardCall(job, 1, false)] + UndoEvents(job, 1, [true])
  {
    hide Run, Accepts, Replay, HasRow, WalkEvents, UndoEvents, RollbackAt, Runnable;
    var w, job := Run(steps), JobOf(Run(steps), m, catalog);
    once, again := RedeliveryUndoesAgain(steps, m, catalog, 1, [true]);
    var before := Replay(Counter, w.log, s);
    var first := FailedRun(job, [false], true, [true]);
    assert seq(1, i => false) == [false];
    ReplayAppends(Counter, w.log, first, s);
    FailedRunLeaves(Counter, job, [false], true, [true], before) by {
      CounterIsInverted(job);
    }
    var second := [ForwardCall(job, 1, false)] + UndoEvents(job, 1, [true]);
    assert Run(steps + once + again).log == Run(steps + once).log + second;
    ReplayAppends(Counter, Run(steps + once).log, second, s);
    LowersOnce(job, before);
  }

  lemma CounterIsInverted(job: Job)
    requires job.steps != [] && job.steps[0].action == "up" && RollbackAt(job, 0) == Some("down")
    ensures WellBehaved(Counter, job, [false]) && SkipsTheIrreversible(job, [false])
  {
    assert Inverts(Counter, job, 0);
  }

  lemma LowersOnce(job: Job, s: int)
    requires |job.steps| > 1 && RollbackAt(job, 0) == Some("down")
    ensures Replay(Counter, [ForwardCall(job, 1, false)] + UndoEvents(job, 1, [true]), s) == s - 1
  {
    assert UndoEvents(job, 0, [true]) == [];
    assert UndoEvents(job, 1, [true]) == [UndoCallOk(job, 0)];
    ReplayAppends(Counter, [ForwardCall(job, 1, false)], [UndoCallOk(job, 0)], s);
    ReplayOne(Counter, ForwardCall(job, 1, false), s);
    ReplayOne(Counter, UndoCallOk(job, 0), s);
  }

  /**
    After the steps, the message is accepted for the first time, for a job whose rollbacks all invert
    their steps; then it is delivered twice, failing at its second step each time and compensating,
    and the counter is as it was after the first delivery, one lower after the second.
  */
  ghost predicate CompensatedTwice(steps: seq<Step>, once: seq<Step>, again: seq<Step>, m: Message, catalog: Catalog,
                                   s: int) {
    var w, first, second := Run(steps), Run(steps + once), Run(steps + once + again);
    && FirstDelivery(w, m, catalog, 1)
    && var job := JobOf(w, m, catalog);
       && (forall i: nat :: i < |job.steps| ==> RollbackAt(job, i).Some? && Inverts(Counter, job, i))
       && first.log == w.log + FailedRun(job, [false], true, [true])
       && second.log == first.log + [ForwardCall(job, 1, false)] + UndoEvents(job, 1, [true])
       && Replay(Counter, w.log, s) == s && Replay(Counter, first.log, s) == s && Replay(Counter, second.log, s) == s - 1
  }

  /** There is such a run from the empty tables on. */
  lemma RedeliveryCompensatesAgain(s: int)
    ensures exists steps, once, again, m, catalog :: CompensatedTwice(steps, once, again, m, catalog, s)
  {
    hide Run, RunOf, Replay, HasRow, WalkEvents, UndoEvents, FailedRun;
    var params := Object(map[]);
    var planSteps := [PlanStep("up", params), PlanStep("up", params)];
    var catalog := map["up" := CatalogEntry([], Some("down"), true)];
    var record := Record(7, 1, Approve, "ops", Some(5));
    var m := MessageOf(record);
    var steps := [OpenIncident(1, Some(5)), Propose(7, 1, planSteps), Decide(7, Approve, "ops", false), Publish(m)];
    ApprovedWorld(planSteps);
    RunIsRunOf(steps);
    var w := Run(steps);
    NoRows(w.ledger);
    assert FirstDelivery(w, m, catalog, 1);
    DecisionIsNoCall(record, s);
    var once, again := CounterEndsLower(steps, m, catalog, s);
    assert CompensatedTwice(steps, once, again, m, catalog, s);
  }

  lemma NoRows(ledger: seq<LedgerRow>)
    requires ledger == []
    ensures forall key :: !HasRow(ledger, key)
  {
  }

  lemma DecisionIsNoCall(record: Record, s: int)
    ensures Replay(Counter, [Decided(record)], s) == s
  {
    ReplayOne(Counter, Decided(record), s);
  }
}
