/**
  The detection worker (src/aegis_services/detection/worker.py): signals are normalised, correlated
  with the open incidents, and attached or turned into a new incident, one transaction a signal.
*/
module Detection {
  import opened Options
  import opened Sorting
  import opened Topology
  import opened Correlation

  type SignalId = nat

  datatype SignalKind = Metric | Log | Trace | Alert | Deploy | Change

  datatype Signal = Signal(id: SignalId, kind: SignalKind, service: string, title: string, severity: Severity)

  datatype Status =
    | Opened | Investigating | PlanProposed | AwaitingApproval | Executing | Verifying | Resolved | Escalated

  datatype IncidentRow = IncidentRow(
    status: Status, severity: Severity, services: seq<string>, fencingToken: nat, version: nat, updatedAt: int)

  datatype SignalRow = SignalRow(incident: IncidentId, signal: Signal)

  /** The tables that detection writes, and the fencing sequence's next value. */
  datatype Store = Store(
    incidents: map<IncidentId, IncidentRow>,
    signals: map<SignalId, SignalRow>,
    audit: seq<SignalRow>,
    nextToken: nat)

  /** How many open incidents the worker looks at. */
  const VIEW_LIMIT := 200

  function Normalize(s: Signal): Signal {
    if s.severity == Unknown && s.kind == Alert then s.(severity := Sev3) else s
  }

  /**
    A possible answer to the query for open incidents: the most recently updated unresolved ones, at
    most VIEW_LIMIT of them, newest first.
  */
  ghost predicate IsListing(incidents: map<IncidentId, IncidentRow>, ids: seq<IncidentId>) {
    && |ids| <= VIEW_LIMIT
    && (forall i :: 0 <= i < |ids| ==> ids[i] in incidents && incidents[ids[i]].status != Resolved)
    && (forall i, j :: 0 <= i < j < |ids| ==>
          ids[i] != ids[j] && incidents[ids[i]].updatedAt >= incidents[ids[j]].updatedAt)
    && (forall id :: id in incidents && incidents[id].status != Resolved && id !in ids ==>
          |ids| == VIEW_LIMIT && forall i :: 0 <= i < |ids| ==> incidents[ids[i]].updatedAt >= incidents[id].updatedAt)
  }

  function ViewOf(id: IncidentId, row: IncidentRow): OpenIncidentView {
    OpenIncidentView(id, Elements(row.services), row.severity, row.updatedAt)
  }

  function Views(incidents: map<IncidentId, IncidentRow>, ids: seq<IncidentId>): (views: seq<OpenIncidentView>)
    requires forall i :: 0 <= i < |ids| ==> ids[i] in incidents
    ensures |views| == |ids| && forall i :: 0 <= i < |ids| ==> views[i] == ViewOf(ids[i], incidents[ids[i]])
  {
    seq(|ids|, i requires 0 <= i < |ids| => ViewOf(ids[i], incidents[ids[i]]))
  }

  /** What the environment contributes to the handling of one signal. */
  datatype Context = Context(
    adj: Adjacency,          // the loaded topology
    window: int,             // the correlation window, in seconds
    now: int,                // the worker's clock
    stamp: int,              // the database's clock
    newId: IncidentId,       // the id a new incident would get
    listing: seq<IncidentId> // the answer to the query for open incidents
  )

  datatype Outcome = Attached(incident: IncidentId) | OpenedNew(incident: IncidentId) | Duplicate

  // ----- The specification: one signal, on values -----

  function Decide(store: Store, s: Signal, c: Context): Decision
    requires IsListing(store.incidents, c.listing)
  {
    Correlate(s.service, s.severity, Views(store.incidents, c.listing), c.adj, c.now, c.window)
  }

  function Extended(row: IncidentRow, s: Signal, stamp: int): IncidentRow {
    IncidentRow(
      Investigating,
      MoreSevere(row.severity, s.severity),
      if s.service in row.services then row.services else row.services + [s.service],
      row.fencingToken,
      row.version + 1,
      stamp)
  }

  function AttachTo(store: Store, id: IncidentId, s: Signal, stamp: int): Store
    requires id in store.incidents
  {
    store.(incidents := store.incidents[id := Extended(store.incidents[id], s, stamp)],
           signals := store.signals[s.id := SignalRow(id, s)],
           audit := store.audit + [SignalRow(id, s)])
  }

  function OpenWith(store: Store, id: IncidentId, s: Signal, stamp: int): Store {
    Store(store.incidents[id := IncidentRow(Opened, s.severity, [s.service], store.nextToken, 0, stamp)],
          store.signals[s.id := SignalRow(id, s)],
          store.audit + [SignalRow(id, s)],
          store.nextToken + 1)
  }

  /** What one signal does: it is refused, attached or turned into a new incident. */
  function Verdict(store: Store, s: Signal, c: Context): Outcome
    requires IsListing(store.incidents, c.listing)
  {
    if s.id in store.signals then Duplicate
    else
      var d := Decide(store, s, c);
      if d.Attach? && d.incident in store.incidents then Attached(d.incident) else OpenedNew(c.newId)
  }

  /** A refused signal leaves the tables alone; if it would have opened an incident, a token is lost. */
  function Handled(store: Store, raw: Signal, c: Context): Store
    requires IsListing(store.incidents, c.listing)
  {
    var s := Normalize(raw);
    match Verdict(store, s, c)
    case Attached(id) => AttachTo(store, id, s, c.stamp)
    case OpenedNew(id) => OpenWith(store, id, s, c.stamp)
    case Duplicate =>
      var d := Decide(store, s, c);
      if d.Attach? && d.incident in store.incidents then store else store.(nextToken := store.nextToken + 1)
  }

  class DetectionWorker {
    var incidents: map<IncidentId, IncidentRow>
    var signals: map<SignalId, SignalRow>
    var audit: seq<SignalRow>
    var nextToken: nat

    function Tables(): Store
      reads this
    {
      Store(incidents, signals, audit, nextToken)
    }

    constructor ()
      ensures Tables() == Store(map[], map[], [], 1)
    {
      incidents, signals, audit, nextToken := map[], map[], [], 1;
    }

    /**
      handle_signal.  A stored signal id is refused by the primary key when the unit of work is flushed,
      which undoes everything in it except the value drawn from the sequence.
    */
    method HandleSignal(raw: Signal, c: Context) returns (outcome: Outcome)
      requires IsListing(incidents, c.listing)
      modifies this
      ensures outcome == old(Verdict(Tables(), Normalize(raw), c))
      ensures Tables() == old(Handled(Tables(), raw, c))
    {
      hide Correlate;
      var sig := Normalize(raw);
      var views := Views(incidents, c.listing);
      var decision := Correlate(sig.service, sig.severity, views, c.adj, c.now, c.window);
      if decision.Attach? && decision.incident in incidents {
        var row := incidents[decision.incident];
        if sig.service !in row.services {
          row := row.(services := row.services + [sig.service]);
        }
        row := row.(severity := MoreSevere(row.severity, sig.severity));
        row := row.(version := row.version + 1);
        row := row.(status := Investigating, updatedAt := c.stamp);
        if sig.id in signals {
          return Duplicate;
        }
        incidents := incidents[decision.incident := row];
        signals := signals[sig.id := SignalRow(decision.incident, sig)];
        audit := audit + [SignalRow(decision.incident, sig)];
        return Attached(decision.incident);
      }
      var severity := if decision.Attach? then sig.severity else decision.severity;
      CorrelatePicksBest(sig.service, sig.severity, views, c.adj, c.now, c.window);
      var token := nextToken;
      nextToken := nextToken + 1;
      if sig.id in signals {
        return Duplicate;
      }
      incidents := incidents[c.newId := IncidentRow(Opened, severity, [sig.service], token, 0, c.stamp)];
      signals := signals[sig.id := SignalRow(c.newId, sig)];
      audit := audit + [SignalRow(c.newId, sig)];
      return OpenedNew(c.newId);
    }
  }
}
