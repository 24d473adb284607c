/**
  Any number of services appending to the one audit chain without a lock
  (src/aegis_common/audit.py:42-58).  A transaction reads the newest committed row, builds its
  own row from it, and commits later; the primary key on seq and the unique hash column
  (src/aegis_common/models.py:86-93) decide at commit time whether the insert stands.
*/
module AuditConcurrency {
  import opened Options
  import opened Audit

  /** Committed rows in seq order, and the uncommitted row of every open transaction. */
  datatype System = System(rows: seq<AuditRow>, drafts: map<nat, AuditRow>)

  datatype Move =
    | Read(tx: nat, entry: Entry)
    | Commit(tx: nat)
    | Abort(tx: nat)

  predicate Conflicts(rows: seq<AuditRow>, row: AuditRow) {
    exists i :: 0 <= i < |rows| && (rows[i].seqNo == row.seqNo || rows[i].hash == row.hash)
  }

  /** The table after an insert, still in seq order. */
  function Insert(rows: seq<AuditRow>, row: AuditRow): seq<AuditRow> {
    if rows == [] || rows[|rows| - 1].seqNo < row.seqNo then rows + [row]
    else Insert(rows[..|rows| - 1], row) + [rows[|rows| - 1]]
  }

  function Step(h: Hasher, s: System, m: Move): System {
    match m
    case Read(tx, entry) => s.(drafts := s.drafts[tx := Draft(h, s.rows, entry)])
    case Abort(tx) => s.(drafts := s.drafts - {tx})
    case Commit(tx) =>
      if tx !in s.drafts then s
      else if Conflicts(s.rows, s.drafts[tx]) then s.(drafts := s.drafts - {tx})
      else System(Insert(s.rows, s.drafts[tx]), s.drafts - {tx})
  }

  /** The state after an interleaving of moves, oldest first, from an empty table. */
  function Run(h: Hasher, moves: seq<Move>): System {
    if moves == [] then System([], map[])
    else Step(h, Run(h, moves[..|moves| - 1]), moves[|moves| - 1])
  }

  ghost predicate Contiguous(rows: seq<AuditRow>) {
    forall i :: 0 <= i < |rows| ==> rows[i].seqNo == i + 1
  }

  /** The draft was built from some row that is, or once was, the newest. */
  ghost predicate Fits(h: Hasher, rows: seq<AuditRow>, draft: AuditRow) {
    1 <= draft.seqNo <= |rows| + 1 && Links(h, Before(h, rows, draft.seqNo - 1), draft)
  }

  ghost predicate Inv(h: Hasher, s: System) {
    && Contiguous(s.rows)
    && Intact(h, s.rows)
    && forall tx :: tx in s.drafts ==> Fits(h, s.rows, s.drafts[tx])
  }

  lemma FitsExtends(h: Hasher, rows: seq<AuditRow>, row: AuditRow, draft: AuditRow)
    requires Fits(h, rows, draft)
    ensures Fits(h, rows + [row], draft)
  {
    assert Before(h, rows + [row], draft.seqNo - 1) == Before(h, rows, draft.seqNo - 1);
  }

  lemma TakenConflicts(rows: seq<AuditRow>, row: AuditRow)
    requires Contiguous(rows) && 1 <= row.seqNo <= |rows|
    ensures Conflicts(rows, row)
  {
    assert rows[row.seqNo - 1].seqNo == row.seqNo;
  }

  lemma InsertLands(h: Hasher, rows: seq<AuditRow>, draft: AuditRow)
    requires Contiguous(rows) && Fits(h, rows, draft) && !Conflicts(rows, draft)
    ensures draft.seqNo == |rows| + 1 && Insert(rows, draft) == rows + [draft]
  {
    if draft.seqNo <= |rows| {
      TakenConflicts(rows, draft);
    }
  }

  lemma DraftFits(h: Hasher, rows: seq<AuditRow>, entry: Entry)
    requires Contiguous(rows)
    ensures Fits(h, rows, Draft(h, rows, entry))
  {
  }

  lemma CommitKeeps(h: Hasher, s: System, draft: AuditRow)
    requires Inv(h, s) && Fits(h, s.rows, draft) && !Conflicts(s.rows, draft)
    ensures Inv(h, s.(rows := Insert(s.rows, draft)))
  {
    InsertLands(h, s.rows, draft);
    IntactExtends(h, s.rows, draft);
    forall tx | tx in s.drafts
      ensures Fits(h, s.rows + [draft], s.drafts[tx])
    {
      FitsExtends(h, s.rows, draft, s.drafts[tx]);
    }
  }

  lemma StepKeeps(h: Hasher, s: System, m: Move)
    requires Inv(h, s)
    ensures Inv(h, Step(h, s, m))
  {
    match m
    case Read(tx, entry) => DraftFits(h, s.rows, entry);
    case Abort(tx) =>
    case Commit(tx) =>
      if tx in s.drafts && !Conflicts(s.rows, s.drafts[tx]) {
        CommitKeeps(h, s, s.drafts[tx]);
      }
  }

  lemma {:induction false} RunKeeps(h: Hasher, moves: seq<Move>)
    ensures Inv(h, Run(h, moves))
  {
    if moves == [] {
    } else {
      RunKeeps(h, moves[..|moves| - 1]);
      StepKeeps(h, Run(h, moves[..|moves| - 1]), moves[|moves| - 1]);
    }
  }

  /** In every reachable state the numbers run 1..n without a gap and the chain verifies. */
  lemma {:induction false} ChainNeverBreaks(h: Hasher, moves: seq<Move>)
    ensures forall i :: 0 <= i < |Run(h, moves).rows| ==> Run(h, moves).rows[i].seqNo == i + 1
    ensures Intact(h, Run(h, moves).rows)
  {
    RunKeeps(h, moves);
  }

  /** Committed rows are never changed, moved or removed by anything that happens later. */
  lemma {:induction false} AppendOnly(h: Hasher, moves: seq<Move>, more: seq<Move>)
    ensures Run(h, moves).rows <= Run(h, moves + more).rows
  {
    if more == [] {
      assert moves + more == moves;
    } else {
      var fewer := more[..|more| - 1];
      AppendOnly(h, moves, fewer);
      assert (moves + more)[..|moves + more| - 1] == moves + fewer;
      RunKeeps(h, moves + fewer);
      var s, m := Run(h, moves + fewer), more[|more| - 1];
      if m.Commit? && m.tx in s.drafts && !Conflicts(s.rows, s.drafts[m.tx]) {
        InsertLands(h, s.rows, s.drafts[m.tx]);
      }
    }
  }

  /** Two linked rows with different numbers and one hash hash different texts to one digest. */
  lemma {:induction false} SharedHashCollides(h: Hasher, rows: seq<AuditRow>, i: nat, draft: AuditRow)
    requires Intact(h, rows) && Contiguous(rows) && i < |rows|
    requires draft.seqNo == |rows| + 1 && Links(h, Head(h, rows), draft)
    requires rows[i].hash == draft.hash
    ensures InputOf(h, rows[i]) != InputOf(h, draft)
    ensures h.sha256(InputOf(h, rows[i])) == h.sha256(InputOf(h, draft))
  {
    var older := rows[..i + 1];
    IntactPrefix(h, rows, i + 1);
    NewestLinks(h, older);
    IntactHeadIsDigest(h, rows);
    if InputOf(h, rows[i]) == InputOf(h, draft) {
      SameInput(h, rows[i], draft);
    }
  }

  /** What a commit does to the rows. */
  ghost predicate Swaps(h: Hasher, rows: seq<AuditRow>, draft: AuditRow, after: seq<AuditRow>) {
    && (after == rows + [draft] || after == rows)
    && (draft.seqNo != |rows| + 1 ==> after == rows)
    && (draft.seqNo == |rows| + 1 && after == rows ==> exists i :: 0 <= i < |rows| && Collide(h, rows[i], draft))
  }

  ghost predicate Collide(h: Hasher, a: AuditRow, b: AuditRow) {
    InputOf(h, a) != InputOf(h, b) && h.sha256(InputOf(h, a)) == h.sha256(InputOf(h, b))
  }

  lemma CommitSwaps(h: Hasher, s: System, tx: nat)
    requires Inv(h, s) && tx in s.drafts
    ensures Swaps(h, s.rows, s.drafts[tx], Step(h, s, Commit(tx)).rows)
  {
    hide Intact, Links, Insert;
    var draft := s.drafts[tx];
    if !Conflicts(s.rows, draft) {
      InsertLands(h, s.rows, draft);
    } else if draft.seqNo == |s.rows| + 1 {
      var i :| 0 <= i < |s.rows| && (s.rows[i].seqNo == draft.seqNo || s.rows[i].hash == draft.hash);
      SharedHashCollides(h, s.rows, i, draft);
      assert Collide(h, s.rows[i], draft);
    }
  }

  /**
    The commit is a compare-and-swap: a draft lands, as the newest row, exactly when no row was
    committed since the draft was read.  The one other way to fail is a digest collision, which
    the two rows then exhibit.
  */
  lemma CommitIsCompareAndSwap(h: Hasher, moves: seq<Move>, tx: nat)
    requires tx in Run(h, moves).drafts
    ensures Swaps(h, Run(h, moves).rows, Run(h, moves).drafts[tx], Run(h, moves + [Commit(tx)]).rows)
  {
    hide Inv, Step, Swaps;
    assert (moves + [Commit(tx)])[..|moves|] == moves;
    RunKeeps(h, moves);
    CommitSwaps(h, Run(h, moves), tx);
  }

  // ----- What an append adds -----

  /** The row has the entry's columns. */
  predicate Tells(row: AuditRow, e: Entry) {
    && row.payload == e.payload && row.actor == e.actor && row.action == e.action
    && row.incident == e.incident && row.traceId == e.traceId
  }

  /** The moves are those of other transactions. */
  ghost predicate OfOthers(moves: seq<Move>, tx: nat) {
    forall i :: 0 <= i < |moves| ==> moves[i].tx != tx
  }

  lemma RunSnoc(h: Hasher, moves: seq<Move>, m: Move)
    ensures Run(h, moves + [m]) == Step(h, Run(h, moves), m)
  {
    assert (moves + [m])[..|moves|] == moves;
  }

  /** A draft stays as it is until its own transaction ends. */
  lemma {:induction false} DraftWaits(h: Hasher, moves: seq<Move>, more: seq<Move>, tx: nat)
    requires tx in Run(h, moves).drafts && OfOthers(more, tx)
    ensures tx in Run(h, moves + more).drafts && Run(h, moves + more).drafts[tx] == Run(h, moves).drafts[tx]
  {
    hide Run, Insert, Draft, Conflicts;
    if more == [] {
      assert moves + more == moves;
    } else {
      var fewer := more[..|more| - 1];
      DraftWaits(h, moves, fewer, tx);
      RunSnoc(h, moves + fewer, more[|more| - 1]);
      assert moves + more == moves + fewer + [more[|more| - 1]];
    }
  }

  /** The draft that a transaction reads has the next number, the newest hash, its own hash and the entry's columns. */
  lemma ReadDrafts(h: Hasher, moves: seq<Move>, tx: nat, e: Entry)
    ensures var rows, after := Run(h, moves).rows, Run(h, moves + [Read(tx, e)]);
      && after.rows == rows && tx in after.drafts
      && after.drafts[tx].seqNo == |rows| + 1
      && after.drafts[tx].prevHash == (if rows == [] then h.genesis else rows[|rows| - 1].hash)
      && after.drafts[tx].hash == h.sha256(HashInput(h, |rows| + 1, after.drafts[tx].prevHash, e.payload))
      && Tells(after.drafts[tx], e)
  {
    hide Run, HashInput;
    RunSnoc(h, moves, Read(tx, e));
    RunKeeps(h, moves);
  }

  /**
    An append appends: if a transaction reads the tail, and no row lands before it commits, then its
    commit adds exactly one row, with the next number, linked to the newest row, hashed, and with the
    columns of its entry; or a row that is already there has a different text with the same digest.
  */
  lemma {:induction false} AppendLands(h: Hasher, moves: seq<Move>, tx: nat, e: Entry, between: seq<Move>)
    requires OfOthers(between, tx)
    requires Run(h, moves + [Read(tx, e)] + between).rows == Run(h, moves).rows
    ensures var rows, after := Run(h, moves).rows, Run(h, moves + [Read(tx, e)] + between + [Commit(tx)]).rows;
      var prevHash := if rows == [] then h.genesis else rows[|rows| - 1].hash;
      var text := HashInput(h, |rows| + 1, prevHash, e.payload);
      || (|after| == |rows| + 1 && after[..|rows|] == rows
          && after[|rows|] == AuditRow(|rows| + 1, e.incident, e.actor, e.action, e.payload, e.traceId, prevHash,
                                       h.sha256(text)))
      || (after == rows
          && exists i :: 0 <= i < |rows| && InputOf(h, rows[i]) != text && h.sha256(InputOf(h, rows[i])) == h.sha256(text))
  {
    hide Run, HashInput, Insert, Conflicts, Intact, Links;
    var read := moves + [Read(tx, e)];
    ReadDrafts(h, moves, tx, e);
    DraftWaits(h, read, between, tx);
    CommitIsCompareAndSwap(h, read + between, tx);
    var rows, draft := Run(h, moves).rows, Run(h, read).drafts[tx];
    LandsUnlessTaken(h, read + between, tx);
    assert InputOf(h, draft) == HashInput(h, |rows| + 1, draft.prevHash, e.payload);
    if Run(h, read + between + [Commit(tx)]).rows == rows {
      var i :| 0 <= i < |rows| && Collide(h, rows[i], draft);
      assert InputOf(h, rows[i]) != InputOf(h, draft);
    }
  }

  lemma LandsUnlessTaken(h: Hasher, moves: seq<Move>, tx: nat)
    requires tx in Run(h, moves).drafts
    ensures var rows, draft := Run(h, moves).rows, Run(h, moves).drafts[tx];
      Run(h, moves + [Commit(tx)]).rows != rows ==> Run(h, moves + [Commit(tx)]).rows == rows + [draft]
  {
    hide Run;
    CommitIsCompareAndSwap(h, moves, tx);
  }

  /** The entry was read by some transaction of the moves. */
  ghost predicate WasRead(moves: seq<Move>, row: AuditRow) {
    exists k :: 0 <= k < |moves| && moves[k].Read? && Tells(row, moves[k].entry)
  }

  ghost predicate AllWereRead(s: System, moves: seq<Move>) {
    && (forall i :: 0 <= i < |s.rows| ==> WasRead(moves, s.rows[i]))
    && (forall tx :: tx in s.drafts ==> WasRead(moves, s.drafts[tx]))
  }

  lemma WasReadLater(moves: seq<Move>, m: Move, row: AuditRow)
    requires WasRead(moves, row)
    ensures WasRead(moves + [m], row)
  {
    var k :| 0 <= k < |moves| && moves[k].Read? && Tells(row, moves[k].entry);
    assert (moves + [m])[k] == moves[k];
  }

  lemma ReadNow(h: Hasher, rows: seq<AuditRow>, moves: seq<Move>, tx: nat, e: Entry)
    ensures WasRead(moves + [Read(tx, e)], Draft(h, rows, e))
  {
    hide HashInput;
    assert (moves + [Read(tx, e)])[|moves|] == Read(tx, e);
  }

  lemma StepReads(h: Hasher, s: System, moves: seq<Move>, m: Move)
    requires Inv(h, s) && AllWereRead(s, moves)
    ensures AllWereRead(Step(h, s, m), moves + [m])
  {
    hide Inv, WasRead, Draft, Insert, Conflicts;
    forall row | WasRead(moves, row)
      ensures WasRead(moves + [m], row)
    {
      WasReadLater(moves, m, row);
    }
    match m
    case Read(tx, e) => ReadNow(h, s.rows, moves, tx, e);
    case Abort(_) =>
    case Commit(tx) =>
      if tx in s.drafts && !Conflicts(s.rows, s.drafts[tx]) {
        InvLands(h, s, tx);
      }
  }

  lemma InvLands(h: Hasher, s: System, tx: nat)
    requires Inv(h, s) && tx in s.drafts && !Conflicts(s.rows, s.drafts[tx])
    ensures Insert(s.rows, s.drafts[tx]) == s.rows + [s.drafts[tx]]
  {
    InsertLands(h, s.rows, s.drafts[tx]);
  }

  lemma {:induction false} RunReads(h: Hasher, moves: seq<Move>)
    ensures AllWereRead(Run(h, moves), moves)
  {
    hide Step, Inv;
    if moves == [] {
    } else {
      var earlier := moves[..|moves| - 1];
      RunReads(h, earlier);
      RunKeeps(h, earlier);
      StepReads(h, Run(h, earlier), earlier, moves[|moves| - 1]);
      assert moves == earlier + [moves[|moves| - 1]];
    }
  }

  /** Every committed row has the payload, actor, action, incident and trace id of an entry that was to be appended. */
  lemma {:induction false} RowsTellEntries(h: Hasher, moves: seq<Move>, i: nat)
    requires i < |Run(h, moves).rows|
    ensures exists k :: 0 <= k < |moves| && moves[k].Read? && Tells(Run(h, moves).rows[i], moves[k].entry)
  {
    hide Run;
    RunReads(h, moves);
    assert WasRead(moves, Run(h, moves).rows[i]);
  }
}
