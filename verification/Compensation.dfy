/**
  What a failing run of the executor leaves of the infrastructure.

  A runtime is any function that says what a successful call does to the infrastructure; a failed
  call does nothing.
*/
module Compensation {
  import opened Options
  import opened Remediation

  // ----- The calls of a run -----

  function ForwardCall(job: Job, i: nat, ok: bool): Event
    requires i < |job.steps|
  {
    Forward(job.KeyOf(i), job.steps[i].action, job.steps[i].params, ok)
  }

  function RollbackAt(job: Job, i: nat): Option<string>
    requires i < |job.steps|
  {
    RollbackOf(job.catalog, job.steps[i].action)
  }

  /** The successful forward calls, in order, of the steps that were not skipped. */
  function WalkEvents(job: Job, skipped: seq<bool>): seq<Event>
    requires |skipped| <= |job.steps|
  {
    if skipped == [] then []
    else
      var n := |skipped| - 1;
      WalkEvents(job, skipped[..n]) + if skipped[n] then [] else [ForwardCall(job, n, true)]
  }

  /** The rollback of each reversible step below k, once, in reverse order, with the step's own parameters. */
  function UndoEvents(job: Job, k: nat, oks: seq<bool>): seq<Event>
    requires k <= |job.steps| && k <= |oks|
  {
    if k == 0 then []
    else
      var rest := UndoEvents(job, k - 1, oks);
      match RollbackAt(job, k - 1)
      case None => rest
      case Some(rollback) => [Compensate(job.KeyOf(k - 1), rollback, job.steps[k - 1].params, oks[k - 1])] + rest
  }

  // ----- Their effect -----

  function Effect<S>(runtime: (string, Params, S) -> S, e: Event, s: S): S {
    if (e.Forward? || e.Compensate?) && e.ok then runtime(e.action, e.params, s) else s
  }

  function Replay<S>(runtime: (string, Params, S) -> S, events: seq<Event>, s: S): S {
    if events == [] then s
    else Effect(runtime, events[|events| - 1], Replay(runtime, events[..|events| - 1], s))
  }

  lemma {:induction false} ReplayAppends<S>(runtime: (string, Params, S) -> S, a: seq<Event>, b: seq<Event>, s: S)
    ensures Replay(runtime, a + b, s) == Replay(runtime, b, Replay(runtime, a, s))
  {
    if b == [] {
      assert a + b == a;
    } else {
      ReplayAppends(runtime, a, b[..|b| - 1], s);
      assert (a + b)[..|a + b| - 1] == a + b[..|b| - 1];
    }
  }

  lemma ReplayOne<S>(runtime: (string, Params, S) -> S, e: Event, s: S)
    ensures Replay(runtime, [e], s) == Effect(runtime, e, s)
  {
    assert [e][..0] == [];
  }

  /** The rollback of step i takes back what the step did. */
  ghost predicate Inverts<S(!new)>(runtime: (string, Params, S) -> S, job: Job, i: nat)
    requires i < |job.steps|
  {
    RollbackAt(job, i).Some? ==>
      var p := job.steps[i].params;
      forall s :: runtime(RollbackAt(job, i).value, p, runtime(job.steps[i].action, p, s)) == s
  }

  /** The rollback of step j and the forward call of step i can be exchanged. */
  ghost predicate Commutes<S(!new)>(runtime: (string, Params, S) -> S, job: Job, j: nat, i: nat)
    requires i < |job.steps| && j < |job.steps|
  {
    RollbackAt(job, j).Some? ==>
      var a, p := job.steps[i].action, job.steps[i].params;
      var b, q := RollbackAt(job, j).value, job.steps[j].params;
      forall s :: runtime(b, q, runtime(a, p, s)) == runtime(a, p, runtime(b, q, s))
  }

  /**
    What a runtime must do for a compensated run to have a simple effect: a rollback inverts its step,
    an irreversible step can be exchanged with the rollbacks of the steps before it, and so can the
    rollback of a skipped step with the steps before it that are applied.
  */
  ghost predicate WellBehaved<S(!new)>(runtime: (string, Params, S) -> S, job: Job, skipped: seq<bool>)
    requires |skipped| <= |job.steps|
  {
    && (forall i :: 0 <= i < |skipped| && !skipped[i] ==> Inverts(runtime, job, i))
    && (forall i, j :: 0 <= j < i < |skipped| && !skipped[i] && RollbackAt(job, i).None? ==> Commutes(runtime, job, j, i))
    && (forall i, j :: 0 <= j < i < |skipped| && skipped[i] && !skipped[j] ==> Commutes(runtime, job, i, j))
  }

  /** The forward calls of the irreversible steps that were not skipped. */
  function Kept(job: Job, skipped: seq<bool>): seq<Event>
    requires |skipped| <= |job.steps|
  {
    if skipped == [] then []
    else
      var n := |skipped| - 1;
      Kept(job, skipped[..n]) + if !skipped[n] && RollbackAt(job, n).None? then [ForwardCall(job, n, true)] else []
  }

  /** The rollbacks of the reversible steps that were skipped, in reverse order. */
  function UndoSkipped(job: Job, skipped: seq<bool>): seq<Event>
    requires |skipped| <= |job.steps|
  {
    if skipped == [] then []
    else
      var n := |skipped| - 1;
      var rest := UndoSkipped(job, skipped[..n]);
      if skipped[n] && RollbackAt(job, n).Some? then [UndoCallOk(job, n)] + rest else rest
  }

  function UndoCallOk(job: Job, n: nat): Event
    requires n < |job.steps| && RollbackAt(job, n).Some?
  {
    Compensate(job.KeyOf(n), RollbackAt(job, n).value, job.steps[n].params, true)
  }

  ghost predicate AllOk(oks: seq<bool>) {
    forall i :: 0 <= i < |oks| ==> oks[i]
  }

  lemma WellBehavedPrefix<S(!new)>(runtime: (string, Params, S) -> S, job: Job, skipped: seq<bool>, n: nat)
    requires |skipped| <= |job.steps| && n <= |skipped| && WellBehaved(runtime, job, skipped)
    ensures WellBehaved(runtime, job, skipped[..n])
  {
    hide Inverts, Commutes, RollbackAt;
  }

  // ----- Replaying one more step -----

  function Did<S>(runtime: (string, Params, S) -> S, job: Job, n: nat, s: S): S
    requires n < |job.steps|
  {
    runtime(job.steps[n].action, job.steps[n].params, s)
  }

  /** The state after the rollback of step n, if it has one. */
  function Undid<S>(runtime: (string, Params, S) -> S, job: Job, n: nat, s: S): S
    requires n < |job.steps|
  {
    if RollbackAt(job, n).None? then s else runtime(RollbackAt(job, n).value, job.steps[n].params, s)
  }

  lemma ReplayEnds<S>(runtime: (string, Params, S) -> S, events: seq<Event>, e: Event, s: S)
    ensures Replay(runtime, events + [e], s) == Effect(runtime, e, Replay(runtime, events, s))
    ensures Replay(runtime, [e] + events, s) == Replay(runtime, events, Effect(runtime, e, s))
  {
    ReplayAppends(runtime, events, [e], s);
    ReplayAppends(runtime, [e], events, s);
    ReplayOne(runtime, e, s);
    ReplayOne(runtime, e, Replay(runtime, events, s));
  }

  lemma WalkLast<S>(runtime: (string, Params, S) -> S, job: Job, skipped: seq<bool>, s: S)
    requires 0 < |skipped| <= |job.steps|
    ensures var n := |skipped| - 1;
      var before := Replay(runtime, WalkEvents(job, skipped[..n]), s);
      Replay(runtime, WalkEvents(job, skipped), s) == if skipped[n] then before else Did(runtime, job, n, before)
  {
    hide Replay;
    var n := |skipped| - 1;
    if skipped[n] {
      assert WalkEvents(job, skipped) == WalkEvents(job, skipped[..n]);
    } else {
      ReplayEnds(runtime, WalkEvents(job, skipped[..n]), ForwardCall(job, n, true), s);
    }
  }

  lemma UndoFirst<S>(runtime: (string, Params, S) -> S, job: Job, k: nat, oks: seq<bool>, t: S)
    requires 0 < k <= |job.steps| && k <= |oks| && AllOk(oks)
    ensures Replay(runtime, UndoEvents(job, k, oks), t)
         == Replay(runtime, UndoEvents(job, k - 1, oks), Undid(runtime, job, k - 1, t))
  {
    hide Replay;
    if RollbackAt(job, k - 1).Some? {
      ReplayEnds(runtime, UndoEvents(job, k - 1, oks), UndoCallOk(job, k - 1), t);
    }
  }

  lemma KeptLast<S>(runtime: (string, Params, S) -> S, job: Job, skipped: seq<bool>, t: S)
    requires 0 < |skipped| <= |job.steps|
    ensures var n := |skipped| - 1;
      var before := Replay(runtime, Kept(job, skipped[..n]), t);
      Replay(runtime, Kept(job, skipped), t)
        == if !skipped[n] && RollbackAt(job, n).None? then Did(runtime, job, n, before) else before
  {
    hide Replay;
    var n := |skipped| - 1;
    if !skipped[n] && RollbackAt(job, n).None? {
      ReplayEnds(runtime, Kept(job, skipped[..n]), ForwardCall(job, n, true), t);
    } else {
      assert Kept(job, skipped) == Kept(job, skipped[..n]);
    }
  }

  lemma UndoSkippedFirst<S>(runtime: (string, Params, S) -> S, job: Job, skipped: seq<bool>, s: S)
    requires 0 < |skipped| <= |job.steps|
    ensures var n := |skipped| - 1;
      Replay(runtime, UndoSkipped(job, skipped), s)
        == Replay(runtime, UndoSkipped(job, skipped[..n]), if skipped[n] then Undid(runtime, job, n, s) else s)
  {
    hide Replay;
    var n := |skipped| - 1;
    if skipped[n] && RollbackAt(job, n).Some? {
      ReplayEnds(runtime, UndoSkipped(job, skipped[..n]), UndoCallOk(job, n), s);
    }
  }

  // ----- Exchanging -----

  /** An irreversible effect that came before a stretch of rollbacks may as well come after it. */
  lemma {:induction false} UndoCommutes<S(!new)>(runtime: (string, Params, S) -> S, job: Job, k: nat, oks: seq<bool>,
                                                 i: nat, s: S)
    requires k <= i < |job.steps| && k <= |oks| && AllOk(oks)
    requires forall j: nat :: j < k ==> Commutes(runtime, job, j, i)
    ensures Replay(runtime, UndoEvents(job, k, oks), Did(runtime, job, i, s))
         == Did(runtime, job, i, Replay(runtime, UndoEvents(job, k, oks), s))
  {
    hide Replay, UndoEvents, AllOk;
    if k == 0 {
      NoEvents(runtime, job, oks, Did(runtime, job, i, s));
      NoEvents(runtime, job, oks, s);
    } else {
      UndoFirst(runtime, job, k, oks, s);
      UndoFirst(runtime, job, k, oks, Did(runtime, job, i, s));
      assert Commutes(runtime, job, k - 1, i);
      UndoCommutes(runtime, job, k - 1, oks, i, Undid(runtime, job, k - 1, s));
    }
  }

  lemma NoEvents<S>(runtime: (string, Params, S) -> S, job: Job, oks: seq<bool>, s: S)
    ensures Replay(runtime, UndoEvents(job, 0, oks), s) == s
    ensures Replay(runtime, WalkEvents(job, []), s) == s
    ensures Replay(runtime, Kept(job, []), s) == s && Replay(runtime, UndoSkipped(job, []), s) == s
  {
  }

  /** The rollback of a later step that was skipped may as well come before the walk. */
  lemma {:induction false} WalkCommutes<S(!new)>(runtime: (string, Params, S) -> S, job: Job, skipped: seq<bool>,
                                                 i: nat, s: S)
    requires |skipped| <= i < |job.steps|
    requires forall j :: 0 <= j < |skipped| && !skipped[j] ==> Commutes(runtime, job, i, j)
    ensures Replay(runtime, WalkEvents(job, skipped), Undid(runtime, job, i, s))
         == Undid(runtime, job, i, Replay(runtime, WalkEvents(job, skipped), s))
  {
    hide Replay, WalkEvents;
    if skipped == [] {
      NoEvents(runtime, job, [], s);
      NoEvents(runtime, job, [], Undid(runtime, job, i, s));
    } else {
      var n := |skipped| - 1;
      WalkLast(runtime, job, skipped, s);
      WalkLast(runtime, job, skipped, Undid(runtime, job, i, s));
      WalkCommutes(runtime, job, skipped[..n], i, s);
      assert !skipped[n] ==> Commutes(runtime, job, i, n);
    }
  }

  // ----- The net effect -----

  /**
    A run walks over some steps, skipping any of them, and then compensates all that are reversible:
    the skipped ones are undone, of the others the irreversible effects remain, and nothing else.
  */
  lemma {:induction false} NetEffect<S(!new)>(runtime: (string, Params, S) -> S, job: Job, skipped: seq<bool>,
                                              oks: seq<bool>, s: S)
    requires |skipped| <= |job.steps| && |skipped| <= |oks| && AllOk(oks)
    requires WellBehaved(runtime, job, skipped)
    ensures Replay(runtime, UndoEvents(job, |skipped|, oks), Replay(runtime, WalkEvents(job, skipped), s))
         == Replay(runtime, Kept(job, skipped), Replay(runtime, UndoSkipped(job, skipped), s))
    decreases |skipped|
  {
    hide Replay, WalkEvents, UndoEvents, Kept, UndoSkipped, AllOk, Did;
    if skipped == [] {
      NoEvents(runtime, job, oks, s);
    } else {
      var n := |skipped| - 1;
      var t := Replay(runtime, WalkEvents(job, skipped[..n]), s);
      WalkLast(runtime, job, skipped, s);
      UndoFirst(runtime, job, n + 1, oks, Replay(runtime, WalkEvents(job, skipped), s));
      UndoSkippedFirst(runtime, job, skipped, s);
      KeptLast(runtime, job, skipped, Replay(runtime, UndoSkipped(job, skipped), s));
      WellBehavedPrefix(runtime, job, skipped, n);
      if skipped[n] {
        SkippedIsExchanged(runtime, job, skipped, s);
        NetEffect(runtime, job, skipped[..n], oks, Undid(runtime, job, n, s));
      } else {
        AppliedIsUndoneOrKept(runtime, job, skipped, oks, t);
        NetEffect(runtime, job, skipped[..n], oks, s);
      }
    }
  }

  lemma SkippedIsExchanged<S(!new)>(runtime: (string, Params, S) -> S, job: Job, skipped: seq<bool>, s: S)
    requires 0 < |skipped| <= |job.steps| && skipped[|skipped| - 1] && WellBehaved(runtime, job, skipped)
    ensures var n := |skipped| - 1;
      Undid(runtime, job, n, Replay(runtime, WalkEvents(job, skipped[..n]), s))
        == Replay(runtime, WalkEvents(job, skipped[..n]), Undid(runtime, job, n, s))
  {
    hide Replay, WalkEvents, Commutes, Inverts, RollbackAt, Undid;
    WalkCommutes(runtime, job, skipped[..|skipped| - 1], |skipped| - 1, s);
  }

  lemma AppliedIsUndoneOrKept<S(!new)>(runtime: (string, Params, S) -> S, job: Job, skipped: seq<bool>,
                                       oks: seq<bool>, t: S)
    requires 0 < |skipped| <= |job.steps| && !skipped[|skipped| - 1] && WellBehaved(runtime, job, skipped)
    requires |skipped| <= |oks| && AllOk(oks)
    ensures var n := |skipped| - 1;
      var undone := Replay(runtime, UndoEvents(job, n, oks), t);
      Replay(runtime, UndoEvents(job, n, oks), Undid(runtime, job, n, Did(runtime, job, n, t)))
        == if RollbackAt(job, n).None? then Did(runtime, job, n, undone) else undone
  {
    hide Replay, UndoEvents, Commutes, AllOk;
    var n := |skipped| - 1;
    assert Inverts(runtime, job, n);
    if RollbackAt(job, n).None? {
      UndoCommutes(runtime, job, n, oks, n, t);
    }
  }

  /**
    A run that fails at some step, whether or not the failing call was made, and whose rollbacks
    succeed: the skipped steps are undone once more, the irreversible effects of the applied ones
    remain.  If exactly the irreversible steps were skipped, as on a first run of reversible ones, the
    infrastructure is as it was.
  */
  lemma FailedRunLeaves<S(!new)>(runtime: (string, Params, S) -> S, job: Job, skipped: seq<bool>, called: bool,
                                 oks: seq<bool>, s: S)
    requires |skipped| < |job.steps| && |skipped| <= |oks| && AllOk(oks)
    requires WellBehaved(runtime, job, skipped)
    ensures var events := FailedRun(job, skipped, called, oks);
      && Replay(runtime, events, s) == Replay(runtime, Kept(job, skipped), Replay(runtime, UndoSkipped(job, skipped), s))
      && (SkipsTheIrreversible(job, skipped) ==> Replay(runtime, events, s) == s)
  {
    hide Replay, WalkEvents, UndoEvents, Kept, UndoSkipped, WellBehaved, AllOk;
    var k := |skipped|;
    var walk, undo := WalkEvents(job, skipped), UndoEvents(job, k, oks);
    var middle := if called then [ForwardCall(job, k, false)] else [];
    ReplayAppends(runtime, walk + middle, undo, s);
    ReplayAppends(runtime, walk, middle, s);
    ReplayOne(runtime, ForwardCall(job, k, false), Replay(runtime, walk, s));
    NothingToReplay(runtime, Replay(runtime, walk, s));
    NetEffect(runtime, job, skipped, oks, s);
    if SkipsTheIrreversible(job, skipped) {
      NothingRemainsIff(job, skipped);
      NothingToReplay(runtime, s);
    }
  }

  /** The calls of a run that skips as given and fails at the next step. */
  function FailedRun(job: Job, skipped: seq<bool>, called: bool, oks: seq<bool>): seq<Event>
    requires |skipped| < |job.steps| && |skipped| <= |oks|
  {
    WalkEvents(job, skipped) + (if called then [ForwardCall(job, |skipped|, false)] else [])
    + UndoEvents(job, |skipped|, oks)
  }

  /** Exactly the irreversible ones among the steps were skipped. */
  predicate SkipsTheIrreversible(job: Job, skipped: seq<bool>)
    requires |skipped| <= |job.steps|
  {
    forall i :: 0 <= i < |skipped| ==> (skipped[i] <==> RollbackAt(job, i).None?)
  }

  lemma NothingToReplay<S>(runtime: (string, Params, S) -> S, s: S)
    ensures Replay(runtime, [], s) == s
  {
  }

  /** Nothing is undone in excess, and nothing remains, exactly in that case. */
  lemma {:induction false} NothingRemainsIff(job: Job, skipped: seq<bool>)
    requires |skipped| <= |job.steps|
    ensures Kept(job, skipped) == [] && UndoSkipped(job, skipped) == [] <==> SkipsTheIrreversible(job, skipped)
  {
    if skipped == [] {
    } else {
      NothingRemainsIff(job, skipped[..|skipped| - 1]);
    }
  }

  // ----- Where restoration fails -----

  /** Scaling sets the replica count to what the parameters say. */
  function Scale(target: Params -> int): (string, Params, int) -> int {
    (action: string, params: Params, s: int) => if action == "scale_replicas" then target(params) else s
  }

  /**
    The seed catalog names scale_replicas as its own rollback (scripts/init_db.py:24-26), called with
    the forward step's parameters: it inverts the step only where there was nothing to scale, and a
    rolled-back step leaves the new count.
  */
  lemma {:induction false} SeedScaleIsNotUndone(target: Params -> int, job: Job, s: int)
    requires |job.steps| == 1 && job.steps[0].action == "scale_replicas"
    requires RollbackAt(job, 0) == Some("scale_replicas")
    ensures Replay(Scale(target), WalkEvents(job, [false]) + UndoEvents(job, 1, [true]), s) == s
        <==> s == target(job.steps[0].params)
  {
    var call, p := ForwardCall(job, 0, true), job.steps[0].params;
    var back := Compensate(job.KeyOf(0), "scale_replicas", p, true);
    assert [false][..0] == [];
    assert WalkEvents(job, []) == [];
    assert WalkEvents(job, [false]) == [call];
    assert UndoEvents(job, 0, [true]) == [];
    assert UndoEvents(job, 1, [true]) == [back];
    ReplayAppends(Scale(target), [call], [back], s);
    ReplayOne(Scale(target), call, s);
    ReplayOne(Scale(target), back, target(p));
  }
}
