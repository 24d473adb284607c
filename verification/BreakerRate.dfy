/**
  A sequential client of the circuit breaker: guard, call, record
  (src/aegis_services/action_executor/worker.py:132-142,
  src/aegis_services/orchestrator/agents.py:36-45), and how many failing calls it can let through.
*/
module BreakerRate {
  import opened Reliability

  /** One attempt: when it asks, when its outcome is recorded if it is let through, and that outcome. */
  datatype Call = Call(at: int, done: int, works: bool)

  predicate Admits(threshold: int, cooldown: int, s: Snapshot, c: Call) {
    Next(threshold, cooldown, s, Query(c.at)).state != Open
  }

  function Outcome(c: Call): Event {
    if c.works then Success else Failure(c.done)
  }

  function AfterCall(threshold: int, cooldown: int, s: Snapshot, c: Call): Snapshot {
    var asked := Next(threshold, cooldown, s, Query(c.at));
    if asked.state == Open then asked else Next(threshold, cooldown, asked, Outcome(c))
  }

  /** The failures since the last success have reached the threshold, the latest of them less than the cooldown ago. */
  ghost predicate Refuses(b: CircuitBreaker, now: int)
    reads b
  {
    && FailureRun(b.history) >= b.threshold && FailureRun(b.history) >= 1
    && now - LatestFailure(b.history).GetOr(now) < b.cooldown
  }

  /** The guard, the call and the recording of its outcome, on the breaker object. */
  method GuardedCall(b: CircuitBreaker, c: Call) returns (admitted: bool)
    requires b.Valid()
    modifies b
    ensures b.Valid()
    ensures var s := old(Replay(b.threshold, b.cooldown, b.history));
            && (admitted <==> Admits(b.threshold, b.cooldown, s, c))
            && Replay(b.threshold, b.cooldown, b.history) == AfterCall(b.threshold, b.cooldown, s, c)
    ensures b.history == old(b.history) + [Query(c.at)] +
      if !admitted then [] else if c.works then [Success] else [Failure(c.done)]
    ensures admitted && c.works ==> b.state == Closed && b.failures == 0
    ensures admitted && !c.works ==> b.failures == old(b.failures) + 1
    ensures !admitted ==> b.failures == old(b.failures)
    ensures old(NotBefore(b.history, c.at)) ==> (admitted <==> !old(Refuses(b, c.at)))
  {
    hide Replay, FailureRun, LatestFailure, NotBefore;
    ghost var was := b.history;
    AskedIs(b.threshold, b.cooldown, was, c.at);
    admitted := b.Guard(c.at);
    if admitted {
      ReplaySnoc(b.threshold, b.cooldown, b.history, if c.works then Success else Failure(c.done));
      if c.works {
        b.RecordSuccess();
      } else {
        b.RecordFailure(c.done);
      }
    }
  }

  lemma ReplaySnoc(threshold: int, cooldown: int, history: seq<Event>, e: Event)
    ensures Replay(threshold, cooldown, history + [e]) == Next(threshold, cooldown, Replay(threshold, cooldown, history), e)
  {
    assert (history + [e])[..|history|] == history;
  }

  /** What the breaker is after looking at it, and when it is open then. */
  lemma AskedIs(threshold: int, cooldown: int, history: seq<Event>, now: int)
    ensures var asked := Replay(threshold, cooldown, history + [Query(now)]);
      && asked == Next(threshold, cooldown, Replay(threshold, cooldown, history), Query(now))
      && (NotBefore(history, now) ==>
            (asked.state == Open <==>
               && FailureRun(history) >= threshold && FailureRun(history) >= 1
               && now - LatestFailure(history).GetOr(now) < cooldown))
  {
    hide Replay, FailureRun, LatestFailure, NotBefore;
    ReplaySnoc(threshold, cooldown, history, Query(now));
    if NotBefore(history, now) {
      RefusedIff(threshold, cooldown, history, now);
    }
  }

  function AfterCalls(threshold: int, cooldown: int, s: Snapshot, calls: seq<Call>): Snapshot {
    if calls == [] then s
    else AfterCall(threshold, cooldown, AfterCalls(threshold, cooldown, s, calls[..|calls| - 1]), calls[|calls| - 1])
  }

  /** When the calls were let through, in order. */
  function Admissions(threshold: int, cooldown: int, s: Snapshot, calls: seq<Call>): seq<int> {
    if calls == [] then []
    else
      var earlier, c := calls[..|calls| - 1], calls[|calls| - 1];
      Admissions(threshold, cooldown, s, earlier)
      + if Admits(threshold, cooldown, AfterCalls(threshold, cooldown, s, earlier), c) then [c.at] else []
  }

  /** One call at a time, on a clock that does not run backwards. */
  ghost predicate Sequential(calls: seq<Call>) {
    && (forall i :: 0 <= i < |calls| ==> calls[i].at <= calls[i].done)
    && (forall i, j :: 0 <= i < j < |calls| ==> calls[i].done <= calls[j].at)
  }

  ghost predicate AllFail(calls: seq<Call>) {
    forall i :: 0 <= i < |calls| ==> !calls[i].works
  }

  /** From the one that trips the breaker on, admissions are at least a cooldown apart. */
  ghost predicate Spaced(times: seq<int>, free: nat, gap: int) {
    && (forall k :: 0 < k < |times| ==> times[k - 1] <= times[k])
    && (forall k :: 0 < k < |times| && free <= k ==> times[k] - times[k - 1] >= gap)
  }

  lemma SpacedExtends(times: seq<int>, free: nat, gap: int, t: int)
    requires Spaced(times, free, gap)
    requires times != [] ==> times[|times| - 1] <= t
    requires times != [] && free <= |times| ==> t - times[|times| - 1] >= gap
    ensures Spaced(times + [t], free, gap)
  {
  }

  /** What a stretch of failing calls has done to the breaker, given when its calls were let through. */
  ghost predicate Tracks(threshold: int, times: seq<int>, after: Snapshot) {
    && after.failures == |times|
    && after.state == (if |times| < Trip(threshold) then Closed else Open)
    && (after.state == Open ==> times[|times| - 1] <= after.openedAt)
  }

  lemma FailingCallTracks(threshold: int, cooldown: int, times: seq<int>, s: Snapshot, c: Call)
    requires Tracks(threshold, times, s) && !c.works && c.at <= c.done
    ensures var admitted := Admits(threshold, cooldown, s, c);
            && Tracks(threshold, if admitted then times + [c.at] else times, AfterCall(threshold, cooldown, s, c))
            && (admitted && |times| >= Trip(threshold) ==> c.at - times[|times| - 1] >= cooldown)
  {
  }

  lemma StretchPrefix(calls: seq<Call>)
    requires calls != [] && Sequential(calls) && AllFail(calls)
    ensures var earlier, c := calls[..|calls| - 1], calls[|calls| - 1];
            && Sequential(earlier) && AllFail(earlier)
            && !c.works && c.at <= c.done && (earlier != [] ==> earlier[|earlier| - 1].done <= c.at)
  {
  }

  lemma {:induction false} FailuresAreSpaced(threshold: int, cooldown: int, s: Snapshot, calls: seq<Call>)
    requires s.failures == 0 && s.state == Closed
    requires Sequential(calls) && AllFail(calls)
    ensures var times := Admissions(threshold, cooldown, s, calls);
            && Spaced(times, Trip(threshold), cooldown)
            && Tracks(threshold, times, AfterCalls(threshold, cooldown, s, calls))
            && (times != [] ==> calls != [] && times[|times| - 1] <= calls[|calls| - 1].done)
  {
    hide Sequential, AllFail, Admits, AfterCall;
    if calls == [] {
    } else {
      var earlier, c := calls[..|calls| - 1], calls[|calls| - 1];
      StretchPrefix(calls);
      FailuresAreSpaced(threshold, cooldown, s, earlier);
      var times, before := Admissions(threshold, cooldown, s, earlier), AfterCalls(threshold, cooldown, s, earlier);
      FailingCallTracks(threshold, cooldown, times, before, c);
      if Admits(threshold, cooldown, before, c) {
        SpacedExtends(times, Trip(threshold), cooldown, c.at);
      }
    }
  }

  function CountWithin(times: seq<int>, from: int, to: int): nat {
    if times == [] then 0
    else CountWithin(times[..|times| - 1], from, to) + if from <= times[|times| - 1] <= to then 1 else 0
  }

  lemma {:induction false} NoneWithin(times: seq<int>, from: int, to: int)
    requires forall k :: 0 <= k < |times| ==> times[k] < from
    ensures CountWithin(times, from, to) == 0
  {
    if times == [] {
    } else {
      NoneWithin(times[..|times| - 1], from, to);
    }
  }

  lemma {:induction false} CountAtMostLength(times: seq<int>, from: int, to: int)
    ensures CountWithin(times, from, to) <= |times|
  {
    if times == [] {
    } else {
      CountAtMostLength(times[..|times| - 1], from, to);
    }
  }

  lemma {:induction false} LatestBoundsAll(times: seq<int>, free: nat, gap: int, k: nat)
    requires Spaced(times, free, gap) && k < |times|
    ensures times[k] <= times[|times| - 1]
    decreases |times| - k
  {
    if k < |times| - 1 {
      LatestBoundsAll(times, free, gap, k + 1);
    }
  }

  lemma SpacedPrefix(times: seq<int>, free: nat, gap: int)
    requires Spaced(times, free, gap) && times != []
    ensures Spaced(times[..|times| - 1], free, gap)
    ensures |times| > 1 ==> times[|times| - 2] <= times[|times| - 1]
    ensures |times| > 1 && |times| > free ==> times[|times| - 1] - times[|times| - 2] >= gap
  {
  }

  lemma OneMoreGap(n: nat, free: nat, gap: int)
    ensures (n + 1 - free) * gap == (n - free) * gap + gap
  {
  }

  lemma AllBefore(times: seq<int>, free: nat, gap: int, from: int, to: int)
    requires Spaced(times, free, gap) && times != [] && times[|times| - 1] < from
    ensures CountWithin(times, from, to) == 0
  {
    forall k | 0 <= k < |times|
      ensures times[k] < from
    {
      LatestBoundsAll(times, free, gap, k);
    }
    NoneWithin(times, from, to);
  }

  /** Every admission beyond the free ones pushes the latest one a further gap away from the window's start. */
  lemma {:induction false} GapsAddUp(times: seq<int>, free: nat, gap: int, from: int, to: int)
    requires Spaced(times, free, gap) && free >= 1 && gap > 0
    requires times != [] && from <= times[|times| - 1] <= to
    ensures var n := CountWithin(times, from, to);
            n <= free || (n - free) * gap <= times[|times| - 1] - from
  {
    hide Spaced;
    CountAtMostLength(times, from, to);
    if |times| > free {
      var earlier, latest := times[..|times| - 1], times[|times| - 1];
      SpacedPrefix(times, free, gap);
      var before, n := earlier[|earlier| - 1], CountWithin(earlier, from, to);
      assert before == times[|times| - 2];
      assert CountWithin(times, from, to) == n + 1;
      if before < from {
        AllBefore(earlier, free, gap, from, to);
      } else {
        GapsAddUp(earlier, free, gap, from, to);
        OneMoreGap(n, free, gap);
      }
    }
  }

  lemma {:induction false} SpacedCount(times: seq<int>, free: nat, gap: int, from: int, length: nat)
    requires Spaced(times, free, gap) && free >= 1 && gap > 0
    ensures CountWithin(times, from, from + length) <= free + length / gap
  {
    if times == [] {
    } else {
      if from <= times[|times| - 1] <= from + length {
        GapsAddUp(times, free, gap, from, from + length);
        var n := CountWithin(times, from, from + length);
        if n > free {
          QuotientBound(n - free, gap, length);
        }
      } else {
        SpacedPrefix(times, free, gap);
        SpacedCount(times[..|times| - 1], free, gap, from, length);
      }
    }
  }

  lemma ProductGrows(m: nat, n: nat, gap: nat)
    requires m <= n
    ensures m * gap <= n * gap
  {
    assert n * gap == m * gap + (n - m) * gap;
  }

  lemma QuotientBound(n: nat, gap: nat, length: nat)
    requires gap > 0 && n * gap <= length
    ensures n <= length / gap
  {
    if n > length / gap {
      ProductGrows(length / gap + 1, n, gap);
    }
  }

  /**
    Between two successes, or from a fresh breaker on, at most threshold + floor(length / cooldown)
    failing calls are let through in any period of the given length.
  */
  lemma RateBound(threshold: int, cooldown: int, history: seq<Event>, calls: seq<Call>, from: int, length: nat)
    requires history == [] || history[|history| - 1] == Success
    requires Sequential(calls) && AllFail(calls)
    requires cooldown > 0
    ensures var s := Replay(threshold, cooldown, history);
            CountWithin(Admissions(threshold, cooldown, s, calls), from, from + length)
              <= Trip(threshold) + length / cooldown
  {
    var s := Replay(threshold, cooldown, history);
    FailuresAreSpaced(threshold, cooldown, s, calls);
    SpacedCount(Admissions(threshold, cooldown, s, calls), Trip(threshold), cooldown, from, length);
  }
}
