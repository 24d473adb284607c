/**
  The consume loop (`KafkaBus.consume`, src/aegis_common/kafka.py:72-116): positions, commits, failures
  of the handler, crashes and restarts from the committed offsets.
*/
module Consumer {
  import opened Options

  type Partition = nat

  /** How an attempt on a record ends: CutOff is a crash in the middle of it. */
  datatype Ending = Completed | CommitFailed | Raised | CutOff

  datatype Attempt = Attempt(partition: Partition, offset: nat, ending: Ending)

  /** The broker's committed offsets, the live session's positions if there is one, and all attempts so far. */
  datatype State = State(
    committed: map<Partition, nat>,
    position: Option<map<Partition, nat>>,
    attempts: seq<Attempt>)

  datatype Step =
    | Start                                            // a consumer joins, from the committed offsets
    | Record(partition: Partition, ending: Ending)     // the next record of a partition is handled
    | Crash                                            // the session dies between two records

  /** A consumer group that has not committed anything yet starts at the earliest record. */
  function Initial(partitions: set<Partition>): State {
    State(map p | p in partitions :: 0, None, [])
  }

  predicate InSession(s: State, p: Partition) {
    s.position.Some? && p in s.position.value
  }

  /** One round of the loop: the position has moved on before the handler runs; commit() commits every position. */
  function Handling(s: State, p: Partition, ending: Ending): State
    requires InSession(s, p)
  {
    var position := s.position.value;
    var moved := position[p := position[p] + 1];
    var attempts := s.attempts + [Attempt(p, position[p], ending)];
    match ending
    case Completed => State(moved, Some(moved), attempts)
    case CommitFailed => State(s.committed, Some(moved), attempts)
    case Raised => State(s.committed, Some(moved), attempts)
    case CutOff => State(s.committed, None, attempts)
  }

  /** One step; a step that cannot happen changes nothing. */
  function Next(s: State, step: Step): State {
    match step
    case Start => s.(position := Some(s.committed))
    case Crash => s.(position := None)
    case Record(p, ending) =>
      if InSession(s, p) then Handling(s, p, ending) else s
  }

  function Run(s: State, steps: seq<Step>): State {
    if steps == [] then s else Next(Run(s, steps[..|steps| - 1]), steps[|steps| - 1])
  }

  /** What the broker hands out and how handling it ends; stop is whether the stop event is set afterwards. */
  datatype Delivery = Delivery(partition: Partition, ending: Ending, stop: bool)

  /** The deliveries that a session gets to see: up to the first stop or crash. */
  function Seen(deliveries: seq<Delivery>): seq<Step> {
    if deliveries == [] then []
    else [Record(deliveries[0].partition, deliveries[0].ending)] +
         if deliveries[0].stop || deliveries[0].ending == CutOff then [] else Seen(deliveries[1..])
  }

  /** A session is live, on every partition that has a committed offset. */
  ghost predicate Aligned(s: State) {
    s.position.Some? && s.position.value.Keys == s.committed.Keys
  }

  lemma RunSnoc(s: State, steps: seq<Step>, step: Step)
    ensures Run(s, steps + [step]) == Next(Run(s, steps), step)
  {
    assert (steps + [step])[..|steps|] == steps;
  }

  lemma RunOne(s: State, step: Step)
    ensures Run(s, [step]) == Next(s, step)
  {
    assert [step][..0] == [];
  }

  lemma SeenNothing()
    ensures Seen([]) == []
  {
  }

  lemma SeenFrom(deliveries: seq<Delivery>, i: nat)
    requires i < |deliveries|
    ensures var d := deliveries[i];
      Seen(deliveries[i..])
        == [Record(d.partition, d.ending)] + if d.stop || d.ending == CutOff then [] else Seen(deliveries[i + 1..])
  {
    assert deliveries[i..][1..] == deliveries[i + 1..];
  }

  class KafkaBus {
    var committed: map<Partition, nat>
    var position: Option<map<Partition, nat>>
    ghost var attempts: seq<Attempt>

    ghost function Now(): State
      reads this
    {
      State(committed, position, attempts)
    }

    constructor (partitions: set<Partition>)
      ensures Now() == Initial(partitions)
    {
      committed := map p | p in partitions :: 0;
      position, attempts := None, [];
    }

    /** The body of the loop for one record. */
    method HandleRecord(d: Delivery)
      requires InSession(Now(), d.partition) && Aligned(Now())
      modifies this
      ensures Now() == old(Handling(Now(), d.partition, d.ending))
      ensures committed.Keys == old(committed.Keys)
      ensures d.ending != CutOff ==> Aligned(Now())
      ensures attempts == old(attempts) + [Attempt(d.partition, old(position).value[d.partition], d.ending)]
      ensures position == None <==> d.ending == CutOff
      ensures d.ending == Completed ==> committed == position.value
      ensures d.ending != Completed ==> committed == old(committed)
    {
      var offset := position.value[d.partition];
      var moved := position.value[d.partition := offset + 1];
      position := Some(moved);
      attempts := attempts + [Attempt(d.partition, offset, d.ending)];
      match d.ending {
        case Completed => committed := moved;
        case CutOff => position := None;
        case _ =>
      }
    }

    /** consume: one session. */
    method Consume(deliveries: seq<Delivery>)
      requires forall i :: 0 <= i < |deliveries| ==> deliveries[i].partition in committed
      modifies this
      ensures Now() == Run(old(Now()), [Start] + Seen(deliveries) + [Crash])
    {
      hide Run, Seen, Handling;
      ghost var start := Now();
      position := Some(committed);
      ghost var steps := [Start];
      RunOne(start, Start);
      assert deliveries[0..] == deliveries;
      var i, going := 0, true;
      while i < |deliveries| && going
        invariant i <= |deliveries|
        invariant Now() == Run(start, steps)
        invariant committed.Keys == old(committed).Keys
        invariant going ==> Aligned(Now())
        invariant [Start] + Seen(deliveries) == steps + if going then Seen(deliveries[i..]) else []
      {
        var d := deliveries[i];
        var step := Record(d.partition, d.ending);
        SeenFrom(deliveries, i);
        HandleRecord(d);
        RunSnoc(start, steps, step);
        steps := steps + [step];
        going := !d.stop && d.ending != CutOff;
        i := i + 1;
      }
      SeenNothing();
      assert deliveries[|deliveries|..] == [];
      assert [Start] + Seen(deliveries) == steps;
      RunSnoc(start, steps, Crash);
      position := None;
    }
  }

  // ----- A session as a whole -----

  /** The deliveries are seen in order up to the first after which the stop event is set or the process is gone. */
  lemma {:induction false} SeenIsPrefix(deliveries: seq<Delivery>)
    ensures var seen := Seen(deliveries);
      && |seen| <= |deliveries|
      && (forall i :: 0 <= i < |seen| ==> seen[i] == Record(deliveries[i].partition, deliveries[i].ending))
      && (forall i :: 0 <= i < |seen| - 1 ==> !deliveries[i].stop && deliveries[i].ending != CutOff)
      && (|seen| < |deliveries| ==> |seen| > 0 && (deliveries[|seen| - 1].stop || deliveries[|seen| - 1].ending == CutOff))
  {
    if deliveries == [] {
    } else {
      SeenIsPrefix(deliveries[1..]);
      var rest := Seen(deliveries[1..]);
      assert forall i :: 1 <= i < |deliveries| ==> deliveries[i] == deliveries[1..][i - 1];
    }
  }

  /** How many of the records are of the partition. */
  function CountOf(records: seq<Step>, p: Partition): nat {
    if records == [] then 0
    else
      var last := records[|records| - 1];
      CountOf(records[..|records| - 1], p) + if last.Record? && last.partition == p then 1 else 0
  }

  /** The records up to and including the last one whose handling was completed and committed. */
  function UpToCommit(records: seq<Step>): seq<Step> {
    if records == [] then []
    else if records[|records| - 1].Record? && records[|records| - 1].ending == Completed then records
    else UpToCommit(records[..|records| - 1])
  }

  /** The session's records are of its partitions; the process goes at most with the last of them. */
  ghost predicate OneSession(committed: map<Partition, nat>, records: seq<Step>) {
    && (forall i :: 0 <= i < |records| ==> records[i].Record? && records[i].partition in committed)
    && (forall i :: 0 <= i < |records| - 1 ==> records[i].ending != CutOff)
  }

  /** One attempt a record, at the offset that the records of its partition before it lead to. */
  ghost predicate Attempted(s: State, records: seq<Step>, attempts: seq<Attempt>)
    requires OneSession(s.committed, records)
  {
    && |attempts| == |s.attempts| + |records| && s.attempts <= attempts
    && forall i :: 0 <= i < |records| ==>
         var p := records[i].partition;
         attempts[|s.attempts| + i] == Attempt(p, s.committed[p] + CountOf(records[..i], p), records[i].ending)
  }

  /** Every partition is past its records. */
  ghost predicate Past(committed: map<Partition, nat>, records: seq<Step>, offsets: map<Partition, nat>) {
    && offsets.Keys == committed.Keys
    && forall p :: p in committed ==> offsets[p] == committed[p] + CountOf(records, p)
  }

  lemma CountSnoc(records: seq<Step>, r: Step, p: Partition)
    ensures CountOf(records + [r], p) == CountOf(records, p) + if r.Record? && r.partition == p then 1 else 0
    ensures UpToCommit(records + [r]) == if r.Record? && r.ending == Completed then records + [r] else UpToCommit(records)
  {
    assert (records + [r])[..|records|] == records;
  }

  lemma NothingPast(committed: map<Partition, nat>)
    ensures Past(committed, [], committed) && UpToCommit([]) == []
  {
  }

  lemma PastNext(committed: map<Partition, nat>, records: seq<Step>, r: Step, offsets: map<Partition, nat>)
    requires Past(committed, records, offsets) && r.Record? && r.partition in committed
    ensures Past(committed, records + [r], offsets[r.partition := offsets[r.partition] + 1])
  {
    hide CountOf;
    forall p | p in committed
      ensures CountOf(records + [r], p) == CountOf(records, p) + if r.partition == p then 1 else 0
    {
      CountSnoc(records, r, p);
    }
  }

  lemma AttemptedNext(s: State, records: seq<Step>, r: Step, attempts: seq<Attempt>, offset: nat)
    requires OneSession(s.committed, records + [r]) && OneSession(s.committed, records)
    requires Attempted(s, records, attempts) && r.Record? && r.partition in s.committed
    requires offset == s.committed[r.partition] + CountOf(records, r.partition)
    ensures Attempted(s, records + [r], attempts + [Attempt(r.partition, offset, r.ending)])
  {
    hide CountOf;
    forall i | 0 <= i <= |records|
      ensures (records + [r])[..i] == records[..i]
    {
    }
    assert records[..|records|] == records;
  }

  lemma OneSessionPrefix(committed: map<Partition, nat>, records: seq<Step>, r: Step)
    requires OneSession(committed, records + [r])
    ensures OneSession(committed, records) && (records != [] ==> records[|records| - 1].ending != CutOff)
    ensures r.Record? && r.partition in committed
  {
    var all := records + [r];
    assert all[|records|] == r;
    assert forall i :: 0 <= i < |records| ==> records[i] == all[i];
  }

  /** Where a session that started in s stands after its records. */
  ghost predicate SessionAt(s: State, records: seq<Step>, now: State)
    requires OneSession(s.committed, records)
  {
    && Attempted(s, records, now.attempts)
    && Past(s.committed, UpToCommit(records), now.committed)
    && (now.position == None <==> records != [] && records[|records| - 1].ending == CutOff)
    && (now.position.Some? ==> Past(s.committed, records, now.position.value))
  }

  lemma SessionNext(s: State, records: seq<Step>, r: Step, now: State)
    requires OneSession(s.committed, records + [r]) && OneSession(s.committed, records)
    requires SessionAt(s, records, now) && now.position.Some? && r.Record? && r.partition in s.committed
    ensures SessionAt(s, records + [r], Next(now, r))
  {
    hide Attempted, CountOf, UpToCommit, OneSession, Past;
    var position := now.position.value;
    PastAt(s.committed, records, position, r.partition);
    AttemptedNext(s, records, r, now.attempts, position[r.partition]);
    PastNext(s.committed, records, r, position);
    CountSnoc(records, r, r.partition);
  }

  lemma PastAt(committed: map<Partition, nat>, records: seq<Step>, offsets: map<Partition, nat>, p: Partition)
    requires Past(committed, records, offsets) && p in committed
    ensures p in offsets && offsets[p] == committed[p] + CountOf(records, p)
  {
  }

  /**
    What a session does, from any state: every record is attempted once, at the offset that the
    records of its partition before it lead to from where the partition was committed; each partition
    ends up committed past all its records up to the last commit, whatever became of them.
  */
  lemma {:induction false} SessionEffect(s: State, records: seq<Step>)
    requires OneSession(s.committed, records)
    ensures var now := Run(s, [Start] + records);
      && Attempted(s, records, now.attempts)
      && Past(s.committed, UpToCommit(records), now.committed)
      && (now.position == None <==> records != [] && records[|records| - 1].ending == CutOff)
      && (now.position.Some? ==> Past(s.committed, records, now.position.value))
  {
    hide Run, Attempted, Past, CountOf, UpToCommit, OneSession;
    if records == [] {
      assert [Start] + records == [Start];
      RunOne(s, Start);
      NothingPast(s.committed);
      NothingAttempted(s);
    } else {
      var fewer, r := records[..|records| - 1], records[|records| - 1];
      assert [Start] + records == [Start] + fewer + [r] && records == fewer + [r];
      OneSessionPrefix(s.committed, fewer, r);
      SessionEffect(s, fewer);
      RunSnoc(s, [Start] + fewer, r);
      SessionNext(s, fewer, r, Run(s, [Start] + fewer));
    }
  }

  lemma NothingAttempted(s: State)
    ensures OneSession(s.committed, []) && Attempted(s, [], s.attempts)
  {
  }

  // ----- What a committed offset means -----

  /** Some attempt on the record ran to an end, one way or the other. */
  ghost predicate Settled(attempts: seq<Attempt>, p: Partition, n: nat) {
    exists e :: e != CutOff && Attempt(p, n, e) in attempts
  }

  ghost predicate Done(attempts: seq<Attempt>, p: Partition, n: nat) {
    Attempt(p, n, Completed) in attempts || Attempt(p, n, CommitFailed) in attempts
  }

  ghost predicate Inv(s: State) {
    && (forall p, n: nat :: p in s.committed && n < s.committed[p] ==> Settled(s.attempts, p, n))
    && (s.position.Some? ==>
          && s.position.value.Keys == s.committed.Keys
          && (forall p :: p in s.committed ==> s.committed[p] <= s.position.value[p])
          && (forall p, n: nat :: p in s.committed && n < s.position.value[p] ==> Settled(s.attempts, p, n)))
  }

  predicate BelowCommit(s: State, p: Partition, n: nat) {
    p in s.committed && n < s.committed[p]
  }

  /** Every attempt on the record raised or was cut off. */
  ghost predicate OnlyFailures(attempts: seq<Attempt>, p: Partition, n: nat) {
    forall i :: 0 <= i < |attempts| && attempts[i].partition == p && attempts[i].offset == n
      ==> attempts[i].ending in {Raised, CutOff}
  }

  /** The later attempts extend the earlier ones, none of them on the record. */
  ghost predicate NotAgain(earlier: seq<Attempt>, later: seq<Attempt>, p: Partition, n: nat) {
    && earlier <= later
    && forall i :: |earlier| <= i < |later| && later[i].partition == p ==> later[i].offset != n
  }

  lemma SettledNow(attempts: seq<Attempt>, a: Attempt)
    requires a.ending != CutOff
    ensures Settled(attempts + [a], a.partition, a.offset)
  {
    assert Attempt(a.partition, a.offset, a.ending) in attempts + [a];
  }

  lemma SettledLater(attempts: seq<Attempt>, a: Attempt, p: Partition, n: nat)
    requires Settled(attempts, p, n)
    ensures Settled(attempts + [a], p, n)
  {
    var e :| e != CutOff && Attempt(p, n, e) in attempts;
    assert Attempt(p, n, e) in attempts + [a];
  }

  lemma NextKeeps(s: State, step: Step)
    requires Inv(s)
    ensures Inv(Next(s, step))
  {
    if step.Record? && s.position.Some? && step.partition in s.position.value {
      HandlingKeeps(s, step.partition, step.ending);
    }
  }

  lemma HandlingKeeps(s: State, q: Partition, ending: Ending)
    requires Inv(s) && s.position.Some? && q in s.position.value
    ensures Inv(Handling(s, q, ending))
  {
    hide Settled;
    var a := Attempt(q, s.position.value[q], ending);
    var s' := Handling(s, q, ending);
    forall p, n: nat | Settled(s.attempts, p, n)
      ensures Settled(s'.attempts, p, n)
    {
      SettledLater(s.attempts, a, p, n);
    }
    if ending != CutOff {
      SettledNow(s.attempts, a);
    }
  }

  lemma {:induction false} RunKeeps(partitions: set<Partition>, steps: seq<Step>)
    ensures Inv(Run(Initial(partitions), steps))
  {
    hide Inv;
    if steps == [] {
      InitialInv(partitions);
    } else {
      RunKeeps(partitions, steps[..|steps| - 1]);
      NextKeeps(Run(Initial(partitions), steps[..|steps| - 1]), steps[|steps| - 1]);
    }
  }

  lemma InitialInv(partitions: set<Partition>)
    ensures Inv(Initial(partitions))
  {
  }

  /**
    Every record below a committed offset was attempted, and its handling was completed at least once
    unless every attempt on it raised or was cut off, at least one of them raising: a crash alone
    never loses a record.
  */
  lemma CommittedWasHandled(partitions: set<Partition>, steps: seq<Step>, p: Partition, n: nat)
    requires BelowCommit(Run(Initial(partitions), steps), p, n)
    ensures var attempts := Run(Initial(partitions), steps).attempts;
      Done(attempts, p, n) != (Attempt(p, n, Raised) in attempts && OnlyFailures(attempts, p, n))
  {
    hide Run;
    RunKeeps(partitions, steps);
    var attempts := Run(Initial(partitions), steps).attempts;
    assert Settled(attempts, p, n);
    if !Done(attempts, p, n) {
      forall i | 0 <= i < |attempts| && attempts[i].partition == p && attempts[i].offset == n
        ensures attempts[i].ending in {Raised, CutOff}
      {
        assert attempts[i] in attempts;
        assert attempts[i] == Attempt(p, n, attempts[i].ending);
      }
    }
  }

  /** Offsets only move forward, attempts are only added, and no record below a committed offset is attempted again. */
  lemma {:induction false} CommittedIsFinal(partitions: set<Partition>, steps: seq<Step>, more: seq<Step>,
                                            p: Partition, n: nat)
    requires BelowCommit(Run(Initial(partitions), steps), p, n)
    ensures BelowCommit(Run(Initial(partitions), steps + more), p, n)
    ensures NotAgain(Run(Initial(partitions), steps).attempts, Run(Initial(partitions), steps + more).attempts, p, n)
  {
    hide Run, Settled;
    if more == [] {
      assert steps + more == steps;
    } else {
      var fewer, step := more[..|more| - 1], more[|more| - 1];
      CommittedIsFinal(partitions, steps, fewer, p, n);
      RunKeeps(partitions, steps + fewer);
      RunSnoc(Initial(partitions), steps + fewer, step);
      assert steps + more == steps + fewer + [step];
    }
  }

  /** Records of partitions that the session holds, one after the other, none of them cut off. */
  ghost predicate WithinSession(s: State, more: seq<Step>) {
    forall i :: 0 <= i < |more| ==> more[i].Record? && InSession(s, more[i].partition) && more[i].ending != CutOff
  }

  predicate SomeCommit(more: seq<Step>) {
    exists i :: 0 <= i < |more| && more[i].Record? && more[i].ending == Completed
  }

  /** While the session lasts positions never go back, and what a commit commits is where they are. */
  lemma {:induction false} PositionsAdvance(s: State, more: seq<Step>, p: Partition, n: nat)
    requires InSession(s, p) && s.position.value[p] > n && WithinSession(s, more)
    ensures var s' := Run(s, more);
      && s'.position.Some? && s'.position.value.Keys == s.position.value.Keys && s'.position.value[p] > n
      && (BelowCommit(s', p, n) <==> BelowCommit(s, p, n) || SomeCommit(more))
    decreases |more|
  {
    hide Run;
    if more == [] {
      RunNothing(s);
    } else {
      var fewer, step := more[..|more| - 1], more[|more| - 1];
      PositionsAdvance(s, fewer, p, n);
      RunSnoc(s, fewer, step);
      assert more == fewer + [step];
      SomeCommitSnoc(fewer, step);
    }
  }

  lemma RunNothing(s: State)
    ensures Run(s, []) == s
  {
  }

  lemma SomeCommitSnoc(more: seq<Step>, step: Step)
    ensures SomeCommit(more + [step]) <==> SomeCommit(more) || (step.Record? && step.ending == Completed)
  {
    var all := more + [step];
    assert all[|more|] == step;
    if SomeCommit(more) {
      var i :| 0 <= i < |more| && more[i].Record? && more[i].ending == Completed;
      assert all[i] == more[i];
    }
  }

  lemma {:induction false} RunAppends(s: State, steps: seq<Step>, more: seq<Step>)
    ensures Run(s, steps + more) == Run(Run(s, steps), more)
  {
    if more == [] {
      assert steps + more == steps;
    } else {
      RunAppends(s, steps, more[..|more| - 1]);
      assert (steps + more)[..|steps + more| - 1] == steps + more[..|more| - 1];
    }
  }

  /**
    Exactly when the redelivery that is promised for a record whose handler raised does not happen:
    within the session, the record is passed as soon as anything else commits, on whatever partition,
    and not before.
  */
  lemma RaisedIsPassedIff(partitions: set<Partition>, steps: seq<Step>, p: Partition, more: seq<Step>)
    requires var s := Run(Initial(partitions), steps); InSession(s, p) && WithinSession(s, more)
    ensures var n := Run(Initial(partitions), steps).position.value[p];
      BelowCommit(Run(Initial(partitions), steps + [Record(p, Raised)] + more), p, n) <==> SomeCommit(more)
  {
    hide Run, Settled;
    var s := Run(Initial(partitions), steps);
    RunKeeps(partitions, steps);
    RunSnoc(Initial(partitions), steps, Record(p, Raised));
    var raised := Run(Initial(partitions), steps + [Record(p, Raised)]);
    PositionsAdvance(raised, more, p, s.position.value[p]);
    RunAppends(Initial(partitions), steps + [Record(p, Raised)], more);
  }

  /**
    What that means: after a commit the record is never attempted again, in whatever continuation;
    without one, whatever else raises, fails to commit or crashes, the next session starts no later.
  */
  lemma RaisedIsLostOrRetried(partitions: set<Partition>, steps: seq<Step>, p: Partition, more: seq<Step>,
                              later: seq<Step>)
    requires var s := Run(Initial(partitions), steps); InSession(s, p) && WithinSession(s, more)
    ensures var n := Run(Initial(partitions), steps).position.value[p];
      var past := steps + [Record(p, Raised)] + more;
      if SomeCommit(more) then
        NotAgain(Run(Initial(partitions), past).attempts, Run(Initial(partitions), past + later).attempts, p, n)
      else
        var next := Run(Initial(partitions), past + [Start]); InSession(next, p) && next.position.value[p] <= n
  {
    hide Run, Settled;
    var s := Run(Initial(partitions), steps);
    var past := steps + [Record(p, Raised)] + more;
    if SomeCommit(more) {
      RaisedIsPassedIff(partitions, steps, p, more);
      CommittedIsFinal(partitions, past, later, p, s.position.value[p]);
    } else {
      RunKeeps(partitions, steps);
      UncommittedIsRetried(partitions, steps, [Record(p, Raised)] + more);
      assert steps + ([Record(p, Raised)] + more) == past;
    }
  }

  /**
    As long as nothing commits, whatever raises, fails to commit or crashes, the next
    session starts where the last commit left off, so every record from there on is delivered again.
  */
  lemma {:induction false} UncommittedIsRetried(partitions: set<Partition>, steps: seq<Step>, more: seq<Step>)
    requires forall i :: 0 <= i < |more| && more[i].Record? ==> more[i].ending != Completed
    ensures var s := Run(Initial(partitions), steps);
      && Run(Initial(partitions), steps + more).committed == s.committed
      && Run(Initial(partitions), steps + more + [Start]).position == Some(s.committed)
  {
    hide Run;
    RunSnoc(Initial(partitions), steps + more, Start);
    if more == [] {
      assert steps + more == steps;
    } else {
      var fewer, step := more[..|more| - 1], more[|more| - 1];
      UncommittedIsRetried(partitions, steps, fewer);
      RunSnoc(Initial(partitions), steps + fewer, step);
      assert steps + more == steps + fewer + [step];
    }
  }
}
