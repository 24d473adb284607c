/**
  The per-incident budget (src/aegis_common/reliability.py:66-109).

  The clock is a parameter of the methods that read it; times are integers.  The fields of the budget
  are tied to the history of what was charged to it.
*/
module Budgets {
  import opened Options

  datatype Limits = Limits(iterations: int, wallclock: int, tokens: int)

  datatype Charge =
    | Start(at: int)
    | Iteration
    | Tokens(n: int)

  datatype Spending = Spending(start: int, started: bool, iterations: nat, tokens: nat)

  /** The three reasons for which `exhausted` ends a run, in the order in which it looks for them. */
  datatype Reason = IterationBudget | TokenBudget | WallclockBudget

  const NOTHING := Spending(0, false, 0, 0)

  function Charged(s: Spending, c: Charge): Spending {
    match c
    case Start(at) => s.(start := at, started := true)
    case Iteration => s.(iterations := s.iterations + 1)
    case Tokens(n) => s.(tokens := s.tokens + if n > 0 then n else 0)
  }

  function Spent(history: seq<Charge>): Spending {
    if history == [] then NOTHING else Charged(Spent(history[..|history| - 1]), history[|history| - 1])
  }

  function ExhaustedBy(limits: Limits, s: Spending, now: int): Option<Reason> {
    if s.iterations >= limits.iterations then Some(IterationBudget)
    else if s.tokens >= limits.tokens then Some(TokenBudget)
    else if s.started && now - s.start >= limits.wallclock then Some(WallclockBudget)
    else None
  }

  class Budget {
    const limits: Limits
    var start: int
    var started: bool
    var iterations: nat
    var tokens: nat
    ghost var history: seq<Charge>

    ghost function Now(): Spending
      reads this
    {
      Spending(start, started, iterations, tokens)
    }

    ghost predicate Valid()
      reads this
    {
      Now() == Spent(history)
    }

    constructor (limits: Limits)
      ensures Valid() && history == []
      ensures this.limits == limits
    {
      this.limits := limits;
      start, started, iterations, tokens := 0, false, 0, 0;
      history := [];
    }

    method Start(now: int)
      requires Valid()
      modifies this
      ensures Valid() && history == old(history) + [Charge.Start(now)]
    {
      start := now;
      started := true;
      history := history + [Charge.Start(now)];
      assert history[..|history| - 1] == old(history);
    }

    method ChargeIteration()
      requires Valid()
      modifies this
      ensures Valid() && history == old(history) + [Iteration]
    {
      iterations := iterations + 1;
      history := history + [Iteration];
      assert history[..|history| - 1] == old(history);
    }

    method ChargeTokens(n: int)
      requires Valid()
      modifies this
      ensures Valid() && history == old(history) + [Tokens(n)]
    {
      tokens := tokens + if n > 0 then n else 0;
      history := history + [Tokens(n)];
      assert history[..|history| - 1] == old(history);
    }

    method Exhausted(now: int) returns (reason: Option<Reason>)
      requires Valid()
      ensures reason == ExhaustedBy(limits, Spent(history), now)
      ensures reason ==
        if IterationCount(history) >= limits.iterations then Some(IterationBudget)
        else if TokenSum(history) >= limits.tokens then Some(TokenBudget)
        else if LatestStart(history).Some? && now - LatestStart(history).value >= limits.wallclock then Some(WallclockBudget)
        else None
    {
      hide IterationCount, TokenSum;
      CountersFollowHistory(history);
      StartFollowsHistory(history);
      if iterations >= limits.iterations {
        return Some(IterationBudget);
      }
      if tokens >= limits.tokens {
        return Some(TokenBudget);
      }
      if started && now - start >= limits.wallclock {
        return Some(WallclockBudget);
      }
      return None;
    }
  }

  lemma SpentSnoc(history: seq<Charge>, c: Charge)
    ensures Spent(history + [c]) == Charged(Spent(history), c)
  {
    assert (history + [c])[..|history|] == history;
  }

  /** Tokens charged, counted without the budget: what each positive charge adds up to. */
  function TokenSum(history: seq<Charge>): nat {
    if history == [] then 0
    else (if history[0].Tokens? && history[0].n > 0 then history[0].n else 0) + TokenSum(history[1..])
  }

  function IterationCount(history: seq<Charge>): nat {
    |set i | 0 <= i < |history| && history[i].Iteration?|
  }

  /** When the budget was started last, if it was. */
  function LatestStart(history: seq<Charge>): Option<int> {
    if history == [] then None
    else if history[|history| - 1].Start? then Some(history[|history| - 1].at)
    else LatestStart(history[..|history| - 1])
  }

  lemma {:induction false} StartFollowsHistory(history: seq<Charge>)
    ensures LatestStart(history) == if Spent(history).started then Some(Spent(history).start) else None
  {
    if history == [] {
    } else {
      StartFollowsHistory(history[..|history| - 1]);
    }
  }

  lemma {:induction false} TokenSumSnoc(history: seq<Charge>, c: Charge)
    ensures TokenSum(history + [c]) == TokenSum(history) + if c.Tokens? && c.n > 0 then c.n else 0
  {
    if history == [] {
      assert history + [c] == [c] && [c][1..] == [];
    } else {
      assert (history + [c])[1..] == history[1..] + [c];
      TokenSumSnoc(history[1..], c);
    }
  }

  lemma IterationCountSnoc(history: seq<Charge>, c: Charge)
    ensures IterationCount(history + [c]) == IterationCount(history) + if c.Iteration? then 1 else 0
  {
    var was := set i | 0 <= i < |history| && history[i].Iteration?;
    var now := set i | 0 <= i < |history + [c]| && (history + [c])[i].Iteration?;
    assert now == was + if c.Iteration? then {|history|} else {};
  }

  lemma NothingCounted()
    ensures TokenSum([]) == 0 && IterationCount([]) == 0
  {
  }

  /** The counters are the number of charged iterations and the sum of the positive token charges. */
  lemma {:induction false} CountersFollowHistory(history: seq<Charge>)
    ensures Spent(history).iterations == IterationCount(history)
    ensures Spent(history).tokens == TokenSum(history)
  {
    hide TokenSum, IterationCount;
    if history == [] {
      NothingCounted();
    } else {
      var before, c := history[..|history| - 1], history[|history| - 1];
      CountersFollowHistory(before);
      assert history == before + [c];
      TokenSumSnoc(before, c);
      IterationCountSnoc(before, c);
    }
  }

  /** Once exhausted, for whatever reason, a budget that is not started again stays exhausted. */
  lemma {:induction false} ExhaustedIsFinal(limits: Limits, history: seq<Charge>, more: seq<Charge>, now: int, later: int)
    requires ExhaustedBy(limits, Spent(history), now).Some?
    requires now <= later && forall i :: 0 <= i < |more| ==> !more[i].Start?
    ensures ExhaustedBy(limits, Spent(history + more), later).Some?
  {
    if more == [] {
      assert history + more == history;
    } else {
      ExhaustedIsFinal(limits, history, more[..|more| - 1], now, later);
      assert history + more == history + more[..|more| - 1] + [more[|more| - 1]];
      SpentSnoc(history + more[..|more| - 1], more[|more| - 1]);
    }
  }

  /** A budget that is not exhausted is overrun by its next charges by less than what they add. */
  lemma OverrunBound(limits: Limits, history: seq<Charge>, more: seq<Charge>, now: int)
    requires ExhaustedBy(limits, Spent(history), now) == None
    ensures Spent(history + more).tokens < limits.tokens + TokenSum(more)
    ensures Spent(history + more).iterations < limits.iterations + |more|
  {
    OverrunAdds(history, more);
  }

  lemma {:induction false} OverrunAdds(history: seq<Charge>, more: seq<Charge>)
    ensures Spent(history + more).tokens == Spent(history).tokens + TokenSum(more)
    ensures Spent(history + more).iterations <= Spent(history).iterations + |more|
  {
    hide Spent, TokenSum;
    if more == [] {
      NothingCounted();
      assert history + more == history;
    } else {
      var fewer, c := more[..|more| - 1], more[|more| - 1];
      OverrunAdds(history, fewer);
      assert history + more == history + fewer + [c] && more == fewer + [c];
      SpentSnoc(history + fewer, c);
      TokenSumSnoc(fewer, c);
    }
  }
}
