/**
  Deterministic correlation (src/aegis_services/detection/correlation.py).
*/
module Correlation {
  import opened Options
  import opened Sorting
  import opened Topology

  type IncidentId = nat

  datatype Severity = Sev1 | Sev2 | Sev3 | Sev4 | Unknown

  /** Lower is more severe. */
  function Rank(s: Severity): nat {
    match s
    case Sev1 => 0
    case Sev2 => 1
    case Sev3 => 2
    case Sev4 => 3
    case Unknown => 4
  }

  function MoreSevere(a: Severity, b: Severity): Severity {
    if Rank(a) <= Rank(b) then a else b
  }

  /** sev1 is the most severe, then sev2, sev3 and sev4; unknown only if neither is known. */
  lemma SeverityOrder(a: Severity, b: Severity)
    ensures MoreSevere(a, b) ==
      if Sev1 in {a, b} then Sev1
      else if Sev2 in {a, b} then Sev2
      else if Sev3 in {a, b} then Sev3
      else if Sev4 in {a, b} then Sev4
      else Unknown
  {
  }

  datatype OpenIncidentView = OpenIncidentView(
    incident: IncidentId, services: set<string>, severity: Severity, lastUpdated: int)

  datatype Decision =
    | Attach(incident: IncidentId, severity: Severity)
    | OpenNew(severity: Severity)

  const RECENCY: OpenIncidentView -> real := (v: OpenIncidentView) => v.lastUpdated as real

  /** Within the window and topologically related: the two conditions of the scan. */
  predicate Joinable(v: OpenIncidentView, service: string, adj: Adjacency, now: int, window: int) {
    now - v.lastUpdated <= window && Related(adj, service, v.services)
  }

  function JoinTest(service: string, adj: Adjacency, now: int, window: int): OpenIncidentView -> bool {
    (v: OpenIncidentView) => Joinable(v, service, adj, now, window)
  }

  function Correlate(service: string, severity: Severity, views: seq<OpenIncidentView>,
                     adj: Adjacency, now: int, window: int): Decision
  {
    var candidates := SortDescending(views, RECENCY);
    match FirstThat(candidates, JoinTest(service, adj, now, window))
    case Some(v) => Attach(v.incident, MoreSevere(v.severity, severity))
    case None => OpenNew(severity)
  }

  /**
    A signal attaches to a joinable incident that no other joinable one outdates, the earliest listed
    if several are equally recent; it opens a new incident exactly when none is joinable.
  */
  lemma CorrelatePicksBest(service: string, severity: Severity, views: seq<OpenIncidentView>,
                           adj: Adjacency, now: int, window: int)
    ensures var test := JoinTest(service, adj, now, window);
      match Correlate(service, severity, views, adj, now, window)
      case Attach(id, sev) =>
        exists k: nat :: IsBest(views, RECENCY, test, k) && id == views[k].incident
                      && sev == MoreSevere(views[k].severity, severity)
      case OpenNew(sev) => NonePasses(views, test) && sev == severity
  {
    var test := JoinTest(service, adj, now, window);
    FirstOfSortedIsBest(views, RECENCY, test);
    BestIndexIsBest(views, RECENCY, test);
  }

  ghost predicate AnyJoinable(views: seq<OpenIncidentView>, service: string, adj: Adjacency, now: int, window: int) {
    exists i :: 0 <= i < |views| && Joinable(views[i], service, adj, now, window)
  }

  lemma {:induction false} FirstOfPrefix<T>(xs: seq<T>, n: nat, test: T -> bool)
    requires n <= |xs|
    ensures FirstThat(xs, test) ==
      if FirstThat(xs[..n], test).Some? then FirstThat(xs[..n], test) else FirstThat(xs[n..], test)
  {
    if n == 0 {
      assert xs[0..] == xs;
    } else {
      FirstOfPrefix(xs[1..], n - 1, test);
      assert xs[1..][..n - 1] == xs[..n][1..] && xs[1..][n - 1..] == xs[n..];
    }
  }

  /**
    Looking only at the `limit` newest open incidents changes the answer exactly when none of them is
    joinable and some older one is; the answer then is to open a new incident.
  */
  lemma TruncationOnlyOpens(service: string, severity: Severity, views: seq<OpenIncidentView>, limit: nat,
                            adj: Adjacency, now: int, window: int)
    requires Descending(views, RECENCY) && limit <= |views|
    ensures var full := Correlate(service, severity, views, adj, now, window);
            var cut := Correlate(service, severity, views[..limit], adj, now, window);
            && (cut != full <==>
                  (!AnyJoinable(views[..limit], service, adj, now, window)
                   && AnyJoinable(views[limit..], service, adj, now, window)))
            && (cut != full ==> cut == OpenNew(severity))
  {
    var test := JoinTest(service, adj, now, window);
    SortedIsFixed(views, RECENCY);
    SortedIsFixed(views[..limit], RECENCY);
    FirstOfPrefix(views, limit, test);
  }

  /** If the oldest incident looked at is out of the window, the older ones cannot matter. */
  lemma TruncationHarmless(service: string, severity: Severity, views: seq<OpenIncidentView>, limit: nat,
                           adj: Adjacency, now: int, window: int)
    requires Descending(views, RECENCY) && 0 < limit <= |views|
    requires limit == |views| || now - views[limit - 1].lastUpdated > window
    ensures Correlate(service, severity, views[..limit], adj, now, window)
         == Correlate(service, severity, views, adj, now, window)
  {
    TruncationOnlyOpens(service, severity, views, limit, adj, now, window);
    forall i | 0 <= i < |views| - limit
      ensures !Joinable(views[limit..][i], service, adj, now, window)
    {
      assert RECENCY(views[limit - 1]) >= RECENCY(views[limit + i]);
    }
  }
}
