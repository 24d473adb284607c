/**
  Several sessions that decide the same plan at the same time (`decide`,
  src/aegis_services/policy_approval/app.py:130-150), taken apart: each looks at the plan's status,
  later reads the audit tail, and later still commits.  Nothing but the audit record's number, a
  primary key (src/aegis_common/models.py:86), makes a commit fail; other services append as well.
*/
module DecisionRace {
  import opened Remediation

  /** A session that saw `proposed`, and then took a number for its audit record. */
  datatype Session = Looked(verdict: Verdict) | Drafted(verdict: Verdict, number: nat)

  /** The decisions that have landed, the number of audit records, and the open sessions. */
  datatype State = State(landed: seq<Verdict>, records: nat, sessions: map<nat, Session>)

  datatype Move =
    | Look(tx: nat, verdict: Verdict)
    | Draft(tx: nat)
    | Commit(tx: nat)
    | Append
    | Abort(tx: nat)

  /** The last decision that landed is the one that the status column keeps. */
  function StatusOf(s: State): PlanStatus {
    if s.landed == [] then Proposed
    else if s.landed[|s.landed| - 1] == Approve then Approved
    else Rejected
  }

  function Next(s: State, m: Move): State {
    match m
    case Look(tx, verdict) =>
      if StatusOf(s) == Proposed then s.(sessions := s.sessions[tx := Looked(verdict)]) else s
    case Draft(tx) =>
      if tx in s.sessions && s.sessions[tx].Looked? then
        s.(sessions := s.sessions[tx := Drafted(s.sessions[tx].verdict, s.records + 1)])
      else s
    case Commit(tx) =>
      if tx !in s.sessions || s.sessions[tx].Looked? then s
      else if s.sessions[tx].number == s.records + 1 then
        State(s.landed + [s.sessions[tx].verdict], s.records + 1, s.sessions - {tx})
      else s.(sessions := s.sessions - {tx})
    case Append => s.(records := s.records + 1)
    case Abort(tx) => s.(sessions := s.sessions - {tx})
  }

  function Run(moves: seq<Move>): State {
    if moves == [] then State([], 0, map[]) else Next(Run(moves[..|moves| - 1]), moves[|moves| - 1])
  }

  /** A session that saw `proposed` is open and has taken no number yet, or one that is still free. */
  ghost predicate CanLand(s: State) {
    exists tx :: tx in s.sessions && (s.sessions[tx].Looked? || s.sessions[tx].number == s.records + 1)
  }

  ghost predicate Numbered(s: State) {
    forall tx :: tx in s.sessions && s.sessions[tx].Drafted? ==> s.sessions[tx].number <= s.records + 1
  }

  lemma RunSnoc(moves: seq<Move>, m: Move)
    ensures Run(moves + [m]) == Next(Run(moves), m)
  {
    assert (moves + [m])[..|moves|] == moves;
  }

  lemma {:induction false} RunNumbered(moves: seq<Move>)
    ensures Numbered(Run(moves))
  {
    if moves == [] {
    } else {
      RunNumbered(moves[..|moves| - 1]);
    }
  }

  lemma NextCannotLand(s: State, m: Move)
    requires s.landed != [] && !CanLand(s) && Numbered(s)
    ensures Next(s, m).landed == s.landed && !CanLand(Next(s, m))
  {
  }

  lemma {:induction false} NeverLands(moves: seq<Move>, more: seq<Move>)
    requires Run(moves).landed != [] && !CanLand(Run(moves))
    ensures Run(moves + more).landed == Run(moves).landed && !CanLand(Run(moves + more))
  {
    hide Next, CanLand, Run;
    if more == [] {
      assert moves + more == moves;
    } else {
      var fewer := more[..|more| - 1];
      NeverLands(moves, fewer);
      RunNumbered(moves + fewer);
      NextCannotLand(Run(moves + fewer), more[|more| - 1]);
      RunSnoc(moves + fewer, more[|more| - 1]);
      assert moves + more == moves + fewer + [more[|more| - 1]];
    }
  }

  lemma Lands(moves: seq<Move>) returns (more: seq<Move>)
    requires CanLand(Run(moves))
    ensures |Run(moves + more).landed| == |Run(moves).landed| + 1
  {
    hide Run;
    var s := Run(moves);
    var tx :| tx in s.sessions && (s.sessions[tx].Looked? || s.sessions[tx].number == s.records + 1);
    if s.sessions[tx].Looked? {
      RunSnoc(moves, Draft(tx));
      RunSnoc(moves + [Draft(tx)], Commit(tx));
      more := [Draft(tx), Commit(tx)];
      assert moves + more == moves + [Draft(tx)] + [Commit(tx)];
    } else {
      RunSnoc(moves, Commit(tx));
      more := [Commit(tx)];
    }
  }

  /**
    Once a plan is decided, another decision of it can still land exactly if a session that saw it
    proposed is open and has not yet taken the number of its audit record, or has and it is still free.
  */
  lemma DecidedAgainIff(moves: seq<Move>)
    requires Run(moves).landed != []
    ensures CanLand(Run(moves)) <==> exists more :: |Run(moves + more).landed| > |Run(moves).landed|
  {
    hide Run, CanLand;
    if CanLand(Run(moves)) {
      var more := Lands(moves);
      assert |Run(moves + more).landed| > |Run(moves).landed|;
    } else {
      forall more
        ensures Run(moves + more).landed == Run(moves).landed
      {
        NeverLands(moves, more);
      }
    }
  }

  /** In particular, if no session is open when the first decision has landed, it stays the only one. */
  lemma AloneIsOnce(moves: seq<Move>, more: seq<Move>)
    requires Run(moves).landed != [] && Run(moves).sessions == map[]
    ensures Run(moves + more).landed == Run(moves).landed
    ensures StatusOf(Run(moves + more)) == StatusOf(Run(moves))
  {
    hide Run;
    NeverLands(moves, more);
  }

  /** It does happen: a plan is approved, and then rejected by a session that had seen it proposed. */
  lemma ApprovedThenRejected()
    ensures exists moves, more ::
      StatusOf(Run(moves)) == Approved && StatusOf(Run(moves + more)) == Rejected
  {
    hide Run;
    var moves := [Look(1, Approve)] + [Look(2, Reject)] + [Draft(1)] + [Commit(1)];
    var more := [Draft(2)] + [Commit(2)];
    RunNothing();
    RunSnoc([], Look(1, Approve));
    RunSnoc([Look(1, Approve)], Look(2, Reject));
    RunSnoc([Look(1, Approve)] + [Look(2, Reject)], Draft(1));
    RunSnoc([Look(1, Approve)] + [Look(2, Reject)] + [Draft(1)], Commit(1));
    RunSnoc(moves, Draft(2));
    RunSnoc(moves + [Draft(2)], Commit(2));
    assert [] + [Look(1, Approve)] == [Look(1, Approve)];
    assert moves + more == moves + [Draft(2)] + [Commit(2)];
    assert StatusOf(Run(moves)) == Approved;
    assert StatusOf(Run(moves + more)) == Rejected;
  }

  lemma RunNothing()
    ensures Run([]) == State([], 0, map[])
  {
  }
}
