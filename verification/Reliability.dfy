/**
  The circuit breaker (src/aegis_common/reliability.py:30-63).

  The clock is a parameter of every method that reads it; times are integers.  The fields of the
  breaker are tied to the history of what was recorded on it.
*/
module Reliability {
  import opened Options

  datatype BreakerState = Closed | Open | HalfOpen

  /** What can happen to a breaker: an outcome is recorded, or its state is looked at. */
  datatype Event =
    | Success
    | Failure(at: int)
    | Query(at: int)

  datatype Snapshot = Snapshot(failures: nat, state: BreakerState, openedAt: int)

  /** The fields after one more event. */
  function Next(threshold: int, cooldown: int, s: Snapshot, e: Event): Snapshot {
    match e
    case Success => s.(failures := 0, state := Closed)
    case Failure(at) =>
      if s.failures + 1 >= threshold then Snapshot(s.failures + 1, Open, at)
      else s.(failures := s.failures + 1)
    case Query(at) =>
      if s.state == Open && at - s.openedAt >= cooldown then s.(state := HalfOpen) else s
  }

  function Replay(threshold: int, cooldown: int, history: seq<Event>): Snapshot {
    if history == [] then Snapshot(0, Closed, 0)
    else Next(threshold, cooldown, Replay(threshold, cooldown, history[..|history| - 1]), history[|history| - 1])
  }

  class CircuitBreaker {
    const threshold: int
    const cooldown: int
    var failures: nat
    var state: BreakerState
    var openedAt: int
    ghost var history: seq<Event>

    ghost predicate Valid()
      reads this
    {
      Snapshot(failures, state, openedAt) == Replay(threshold, cooldown, history)
    }

    constructor (threshold: int, cooldown: int)
      ensures Valid() && history == []
      ensures this.threshold == threshold && this.cooldown == cooldown
    {
      this.threshold, this.cooldown := threshold, cooldown;
      failures, state, openedAt := 0, Closed, 0;
      history := [];
    }

    /** The `state` property: looking at an open breaker after the cooldown moves it to half-open. */
    method State(now: int) returns (s: BreakerState)
      requires Valid()
      modifies this
      ensures Valid() && history == old(history) + [Query(now)]
      ensures s == state
    {
      if state == Open && now - openedAt >= cooldown {
        state := HalfOpen;
      }
      s := state;
      history := history + [Query(now)];
      assert history[..|history| - 1] == old(history);
    }

    method Allow(now: int) returns (ok: bool)
      requires Valid()
      modifies this
      ensures Valid() && history == old(history) + [Query(now)]
      ensures ok <==> state != Open
    {
      var s := State(now);
      ok := s != Open;
    }

    /** The source raises CircuitOpenError where this answers false. */
    method Guard(now: int) returns (admitted: bool)
      requires Valid()
      modifies this
      ensures Valid() && history == old(history) + [Query(now)]
      ensures admitted <==> state != Open
    {
      admitted := Allow(now);
    }

    method RecordSuccess()
      requires Valid()
      modifies this
      ensures Valid() && history == old(history) + [Success]
    {
      failures := 0;
      state := Closed;
      history := history + [Success];
      assert history[..|history| - 1] == old(history);
    }

    method RecordFailure(now: int)
      requires Valid()
      modifies this
      ensures Valid() && history == old(history) + [Failure(now)]
    {
      failures := failures + 1;
      if failures >= threshold {
        state := Open;
        openedAt := now;
      }
      history := history + [Failure(now)];
      assert history[..|history| - 1] == old(history);
    }
  }

  // ----- The fields as a function of the history -----

  /** Failures since the last success. */
  function FailureRun(history: seq<Event>): nat {
    if history == [] then 0
    else match history[|history| - 1]
      case Success => 0
      case Failure(_) => FailureRun(history[..|history| - 1]) + 1
      case Query(_) => FailureRun(history[..|history| - 1])
  }

  /** When the latest failure since the last success was recorded. */
  function LatestFailure(history: seq<Event>): Option<int> {
    if history == [] then None
    else match history[|history| - 1]
      case Success => None
      case Failure(at) => Some(at)
      case Query(_) => LatestFailure(history[..|history| - 1])
  }

  /** The clock has not run backwards: nothing in the history is later than `now`. */
  ghost predicate NotBefore(history: seq<Event>, now: int) {
    forall i :: 0 <= i < |history| && !history[i].Success? ==> history[i].at <= now
  }

  /** A threshold below one acts as one: the first failure trips. */
  function Trip(threshold: int): nat {
    if threshold < 1 then 1 else threshold
  }

  lemma {:induction false} FieldsFollowHistory(threshold: int, cooldown: int, history: seq<Event>)
    ensures var s := Replay(threshold, cooldown, history);
            && s.failures == FailureRun(history)
            && (s.state == Closed <==> FailureRun(history) < Trip(threshold))
            && (s.failures > 0 <==> LatestFailure(history).Some?)
            && (s.state != Closed ==> LatestFailure(history) == Some(s.openedAt))
  {
    if history == [] {
    } else {
      FieldsFollowHistory(threshold, cooldown, history[..|history| - 1]);
    }
  }

  /** Half-open is only ever reached by looking once the cooldown has passed. */
  lemma {:induction false} HalfOpenIsLate(threshold: int, cooldown: int, history: seq<Event>, now: int)
    requires NotBefore(history, now)
    ensures var s := Replay(threshold, cooldown, history);
            s.state == HalfOpen ==> now - s.openedAt >= cooldown
  {
    if history == [] {
    } else {
      var before, e := history[..|history| - 1], history[|history| - 1];
      forall i | 0 <= i < |before| && !before[i].Success?
        ensures before[i].at <= now
      {
        assert before[i] == history[i];
      }
      HalfOpenIsLate(threshold, cooldown, before, now);
    }
  }

  /**
    On a clock that does not run backwards a guard at `now` refuses exactly while the run of failures
    has reached the threshold and less than the cooldown has passed since the latest of them.
  */
  lemma RefusedIff(threshold: int, cooldown: int, history: seq<Event>, now: int)
    requires NotBefore(history, now)
    ensures Replay(threshold, cooldown, history + [Query(now)]).state == Open <==>
      && FailureRun(history) >= Trip(threshold)
      && now - LatestFailure(history).GetOr(now) < cooldown
  {
    var s := Replay(threshold, cooldown, history);
    assert (history + [Query(now)])[..|history|] == history;
    FieldsFollowHistory(threshold, cooldown, history);
    HalfOpenIsLate(threshold, cooldown, history, now);
  }

  /** One failure out of half-open (or open) trips again, from that moment on; one success closes. */
  lemma ProbeDecides(threshold: int, cooldown: int, history: seq<Event>, at: int)
    requires Replay(threshold, cooldown, history).state != Closed
    ensures var s := Replay(threshold, cooldown, history + [Failure(at)]);
            s.state == Open && s.openedAt == at
    ensures var s := Replay(threshold, cooldown, history + [Success]);
            s.state == Closed && s.failures == 0
  {
    assert (history + [Failure(at)])[..|history|] == history;
    assert (history + [Success])[..|history|] == history;
    FieldsFollowHistory(threshold, cooldown, history);
  }
}
