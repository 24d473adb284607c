/**
  The hash-chained audit log (src/aegis_common/audit.py).

  SHA-256 and the canonical JSON encoding are arbitrary functions, gathered in a Hasher.
  Nothing is assumed about them except that a digest has 64 characters, so every claim
  about tampering is of the form "equal, or here is a collision".
*/
module Audit {
  import opened Options

  type Payload = map<string, string>

  /** The length of a SHA-256 digest in hexadecimal. */
  const DIGEST_LENGTH: nat := 64

  function Zeros(n: nat): (s: string)
    ensures |s| == n
  {
    if n == 0 then "" else Zeros(n - 1) + "0"
  }

  type Digest = d: string | |d| == DIGEST_LENGTH witness Zeros(DIGEST_LENGTH)

  /** The hash, the payload encoding and the genesis value; every claim holds for all choices of the three. */
  datatype Hasher = Hasher(sha256: string -> Digest, canonical: Payload -> string, genesis: Digest)

  datatype AuditRow = AuditRow(
    seqNo: int,
    incident: Option<string>,
    actor: string,
    action: string,
    payload: Payload,
    traceId: Option<string>,
    prevHash: string,
    hash: string)

  // ----- The hash of one row -----

  function Digits(n: nat): (s: string)
    ensures |s| > 0 && forall i :: 0 <= i < |s| ==> '0' <= s[i] <= '9'
  {
    var last := [('0' as int + n % 10) as char];
    if n < 10 then last else Digits(n / 10) + last
  }

  /** Python's rendering of an integer inside an f-string. */
  function Decimal(n: int): string {
    if n < 0 then "-" + Digits(-n) else Digits(n)
  }

  function HashInput(h: Hasher, seqNo: int, prevHash: string, payload: Payload): string {
    Decimal(seqNo) + "|" + (prevHash + "|" + h.canonical(payload))
  }

  function ComputeHash(h: Hasher, seqNo: int, prevHash: string, payload: Payload): Digest {
    h.sha256(HashInput(h, seqNo, prevHash, payload))
  }

  lemma {:induction false} DigitsInjective(m: nat, n: nat)
    requires Digits(m) == Digits(n)
    ensures m == n
  {
    var s, t := Digits(m), Digits(n);
    assert s[|s| - 1] == t[|t| - 1];
    assert m % 10 == n % 10;
    if m >= 10 && n >= 10 {
      assert Digits(m / 10) == s[..|s| - 1] && Digits(n / 10) == t[..|t| - 1];
      DigitsInjective(m / 10, n / 10);
    }
  }

  lemma DecimalHasNoBar(n: int)
    ensures '|' !in Decimal(n)
  {
  }

  lemma MinusIsNoDigit(n: nat)
    ensures Decimal(n)[0] != '-'
  {
  }

  lemma DecimalInjective(m: int, n: int)
    requires Decimal(m) == Decimal(n)
    ensures m == n
  {
    if m < 0 && n < 0 {
      assert Digits(-m) == Decimal(m)[1..] && Digits(-n) == Decimal(n)[1..];
      DigitsInjective(-m, -n);
    } else if m >= 0 && n >= 0 {
      DigitsInjective(m, n);
    } else {
      MinusIsNoDigit(if m < 0 then n else m);
    }
  }

  /** The first bar of a text separates it in one way only. */
  lemma BarSplits(a: string, x: string, b: string, y: string)
    requires '|' !in a && '|' !in b
    requires a + "|" + x == b + "|" + y
    ensures a == b && x == y
  {
    var s, t := a + "|" + x, b + "|" + y;
    assert s[|a|] == '|' && t[|b|] == '|';
    assert a == s[..|a|] && b == t[..|b|];
    assert x == s[|a| + 1..] && y == t[|b| + 1..];
  }

  /** The text that is hashed can be parsed back: it determines the number, the link and the payload text. */
  lemma HashInputParses(h: Hasher, m: int, p: string, x: Payload, n: int, q: string, y: Payload)
    requires |p| == |q|
    requires HashInput(h, m, p, x) == HashInput(h, n, q, y)
    ensures m == n && p == q && h.canonical(x) == h.canonical(y)
  {
    var u, v := h.canonical(x), h.canonical(y);
    var s, t := p + "|" + u, q + "|" + v;
    DecimalHasNoBar(m);
    DecimalHasNoBar(n);
    BarSplits(Decimal(m), s, Decimal(n), t);
    DecimalInjective(m, n);
    assert p == s[..|p|] && q == t[..|q|];
    assert u == s[|p| + 1..] && v == t[|q| + 1..];
  }

  // ----- Verification -----

  /** The hash that row k of the log has to commit to. */
  function Before(h: Hasher, rows: seq<AuditRow>, k: nat): string
    requires k <= |rows|
  {
    if k == 0 then h.genesis else rows[k - 1].hash
  }

  function Head(h: Hasher, rows: seq<AuditRow>): string {
    Before(h, rows, |rows|)
  }

  predicate Links(h: Hasher, prevHash: string, row: AuditRow) {
    && row.hash == ComputeHash(h, row.seqNo, prevHash, row.payload)
    && row.prevHash == prevHash
  }

  ghost predicate Intact(h: Hasher, rows: seq<AuditRow>) {
    forall k :: 0 <= k < |rows| ==> Links(h, Before(h, rows, k), rows[k])
  }

  method VerifyChain(h: Hasher, rows: seq<AuditRow>) returns (intact: bool)
    ensures intact <==> Intact(h, rows)
  {
    hide HashInput;
    var prevHash: string := h.genesis;
    for i := 0 to |rows|
      invariant prevHash == Before(h, rows, i)
      invariant forall k :: 0 <= k < i ==> Links(h, Before(h, rows, k), rows[k])
    {
      var row := rows[i];
      var expected := ComputeHash(h, row.seqNo, prevHash, row.payload);
      if expected != row.hash || row.prevHash != prevHash {
        assert !Links(h, Before(h, rows, i), rows[i]);
        return false;
      }
      prevHash := row.hash;
    }
    return true;
  }

  lemma IntactPrefix(h: Hasher, rows: seq<AuditRow>, n: nat)
    requires Intact(h, rows) && n <= |rows|
    ensures Intact(h, rows[..n])
  {
    forall k | 0 <= k < n
      ensures Links(h, Before(h, rows[..n], k), rows[..n][k])
    {
      assert Links(h, Before(h, rows, k), rows[k]);
    }
  }

  lemma IntactExtends(h: Hasher, rows: seq<AuditRow>, row: AuditRow)
    requires Intact(h, rows)
    ensures Intact(h, rows + [row]) <==> Links(h, Head(h, rows), row)
  {
    var longer := rows + [row];
    assert Before(h, longer, |rows|) == Head(h, rows);
    forall k | 0 <= k < |rows|
      ensures Links(h, Before(h, longer, k), longer[k])
    {
      assert Links(h, Before(h, rows, k), rows[k]);
    }
  }

  lemma IntactHeadIsDigest(h: Hasher, rows: seq<AuditRow>)
    requires Intact(h, rows)
    ensures |Head(h, rows)| == DIGEST_LENGTH
  {
    if rows != [] {
      assert Links(h, Before(h, rows, |rows| - 1), rows[|rows| - 1]);
    }
  }

  // ----- Tamper evidence -----

  /** What a comparison of two logs with the same newest hash comes down to. */
  datatype Evidence =
    | Same
    | Collision(left: string, right: string)
    | GenesisPreimage(text: string)

  function InputOf(h: Hasher, row: AuditRow): string {
    HashInput(h, row.seqNo, row.prevHash, row.payload)
  }

  /** Walks two logs back from their newest rows until the hashed texts differ or one log runs out. */
  function Compare(h: Hasher, left: seq<AuditRow>, right: seq<AuditRow>): Evidence {
    if left == [] && right == [] then Same
    else if left == [] then GenesisPreimage(InputOf(h, right[|right| - 1]))
    else if right == [] then GenesisPreimage(InputOf(h, left[|left| - 1]))
    else
      var x, y := InputOf(h, left[|left| - 1]), InputOf(h, right[|right| - 1]);
      if x != y then Collision(x, y)
      else Compare(h, left[..|left| - 1], right[..|right| - 1])
  }

  /** The columns that the hash covers agree. */
  predicate SameCovered(h: Hasher, a: AuditRow, b: AuditRow) {
    && a.seqNo == b.seqNo
    && a.prevHash == b.prevHash
    && a.hash == b.hash
    && h.canonical(a.payload) == h.canonical(b.payload)
  }

  lemma NewestLinks(h: Hasher, rows: seq<AuditRow>)
    requires Intact(h, rows) && rows != []
    ensures var older, newest := rows[..|rows| - 1], rows[|rows| - 1];
            && Intact(h, older) && newest.prevHash == Head(h, older) && |newest.prevHash| == DIGEST_LENGTH
            && newest.hash == h.sha256(InputOf(h, newest))
  {
    assert Links(h, Before(h, rows, |rows| - 1), rows[|rows| - 1]);
    IntactPrefix(h, rows, |rows| - 1);
    IntactHeadIsDigest(h, rows[..|rows| - 1]);
  }

  lemma SameInput(h: Hasher, a: AuditRow, b: AuditRow)
    requires InputOf(h, a) == InputOf(h, b) && |a.prevHash| == |b.prevHash| && a.hash == b.hash
    ensures SameCovered(h, a, b)
  {
    HashInputParses(h, a.seqNo, a.prevHash, a.payload, b.seqNo, b.prevHash, b.payload);
  }

  /** The evidence is sound: agreement row by row, two texts with one digest, or a text that hashes to genesis. */
  ghost predicate Explains(h: Hasher, left: seq<AuditRow>, right: seq<AuditRow>, e: Evidence) {
    match e
    case Same =>
      |left| == |right| && forall i :: 0 <= i < |left| ==> SameCovered(h, left[i], right[i])
    case Collision(x, y) => x != y && h.sha256(x) == h.sha256(y)
    case GenesisPreimage(x) => h.sha256(x) == h.genesis
  }

  lemma ExplainsExtends(h: Hasher, left: seq<AuditRow>, right: seq<AuditRow>, e: Evidence)
    requires left != [] && right != []
    requires Explains(h, left[..|left| - 1], right[..|right| - 1], e)
    requires SameCovered(h, left[|left| - 1], right[|right| - 1])
    ensures Explains(h, left, right, e)
  {
    if e.Same? {
      forall i | 0 <= i < |left| - 1
        ensures SameCovered(h, left[i], right[i])
      {
        assert SameCovered(h, left[..|left| - 1][i], right[..|right| - 1][i]);
      }
    }
  }

  /**
    Two intact logs that end in the same hash have the same length and agree on every covered
    column of every row; otherwise Compare exhibits two texts with one digest, or a text whose
    digest is the genesis value.
  */
  lemma {:induction false} TamperEvidence(h: Hasher, left: seq<AuditRow>, right: seq<AuditRow>)
    requires Intact(h, left) && Intact(h, right)
    requires Head(h, left) == Head(h, right)
    ensures Explains(h, left, right, Compare(h, left, right))
  {
    if left != [] {
      NewestLinks(h, left);
    }
    if right != [] {
      NewestLinks(h, right);
    }
    if left != [] && right != [] {
      var l, r := left[|left| - 1], right[|right| - 1];
      if InputOf(h, l) == InputOf(h, r) {
        SameInput(h, l, r);
        TamperEvidence(h, left[..|left| - 1], right[..|right| - 1]);
        ExplainsExtends(h, left, right, Compare(h, left[..|left| - 1], right[..|right| - 1]));
      }
    }
  }

  /**
    Exactly which single-row edits go unnoticed: the replacement has to carry the hash of its own
    text, keep the backward link and, unless it is the newest row, keep the hash of the row it replaces.
  */
  lemma {:induction false} EditUnnoticedIff(h: Hasher, rows: seq<AuditRow>, k: nat, row: AuditRow)
    requires Intact(h, rows) && k < |rows|
    ensures Intact(h, rows[k := row]) <==>
      && Links(h, rows[k].prevHash, row)
      && (k + 1 < |rows| ==> row.hash == rows[k].hash)
  {
    var edited := rows[k := row];
    assert Links(h, Before(h, rows, k), rows[k]);
    forall i | 0 <= i < |rows|
      ensures Before(h, edited, i) == if i == k + 1 then row.hash else Before(h, rows, i)
    {
    }
    if k + 1 < |rows| {
      assert Links(h, Before(h, rows, k + 1), rows[k + 1]);
    }
    if Intact(h, edited) {
      assert Links(h, Before(h, edited, k), edited[k]);
      assert k + 1 < |rows| ==> Links(h, Before(h, edited, k + 1), edited[k + 1]);
    } else {
      var i :| 0 <= i < |rows| && !Links(h, Before(h, edited, i), edited[i]);
      assert Links(h, Before(h, rows, i), rows[i]);
    }
  }

  /** Columns outside the hash, and rows cut off at the end, are not protected by the chain. */
  lemma {:induction false} UncoveredByChain(h: Hasher, rows: seq<AuditRow>, k: nat, n: nat, actor: string, action: string,
                                                incident: Option<string>, traceId: Option<string>)
    requires Intact(h, rows) && k < |rows| && n <= |rows|
    ensures Intact(h, rows[k := rows[k].(actor := actor, action := action, incident := incident, traceId := traceId)])
    ensures Intact(h, rows[..n])
  {
    assert Links(h, Before(h, rows, k), rows[k]);
    EditUnnoticedIff(h, rows, k, rows[k].(actor := actor, action := action, incident := incident, traceId := traceId));
    IntactPrefix(h, rows, n);
  }

  // ----- Appending -----

  datatype Entry = Entry(
    incident: Option<string>, actor: string, action: string, payload: Payload, traceId: Option<string>)

  /** The row that append_audit builds from the newest row it can see. */
  function Draft(h: Hasher, rows: seq<AuditRow>, e: Entry): AuditRow {
    var prevHash := Head(h, rows);
    var next := if rows == [] then 1 else rows[|rows| - 1].seqNo + 1;
    AuditRow(next, e.incident, e.actor, e.action, e.payload, e.traceId, prevHash,
             ComputeHash(h, next, prevHash, e.payload))
  }

  class AuditLog {
    var rows: seq<AuditRow>

    constructor ()
      ensures rows == []
    {
      rows := [];
    }

    method Append(h: Hasher, e: Entry) returns (row: AuditRow)
      modifies this
      ensures rows == old(rows) + [row]
      ensures row.payload == e.payload && row.actor == e.actor && row.action == e.action
      ensures row.incident == e.incident && row.traceId == e.traceId
      ensures row.seqNo == if old(rows) == [] then 1 else old(rows)[|old(rows)| - 1].seqNo + 1
      ensures old(Intact(h, rows)) ==> Intact(h, rows)
    {
      var prevHash: string, next := h.genesis, 1;
      if rows != [] {
        var last := rows[|rows| - 1];
        prevHash, next := last.hash, last.seqNo + 1;
      }
      row := AuditRow(next, e.incident, e.actor, e.action, e.payload, e.traceId, prevHash,
                      ComputeHash(h, next, prevHash, e.payload));
      if Intact(h, rows) {
        IntactExtends(h, rows, row);
      }
      rows := rows + [row];
    }
  }
}
