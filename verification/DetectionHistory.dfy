/**
  Runs of the detection worker: whatever the order and number of signals, redeliveries and
  resolutions, the incident table is a fold over the signals that were accepted.
*/
module DetectionHistory {
  import opened Options
  import opened Sorting
  import opened Topology
  import opened Correlation
  import opened Detection

  /** A signal arrives, or the executor resolves an incident (action_executor/worker.py:182-192). */
  datatype Step =
    | Arrive(signal: Signal, context: Context)
    | Resolve(incident: IncidentId, stamp: int)

  /** The tables, the accepted signals in order, and the incidents in opening order. */
  datatype World = World(store: Store, accepted: seq<SignalRow>, openings: seq<IncidentId>)

  const EMPTY: World := World(Store(map[], map[], [], 1), [], [])

  ghost predicate Possible(w: World, step: Step, adj: Adjacency) {
    match step
    case Arrive(s, c) =>
      && IsListing(w.store.incidents, c.listing)
      && c.newId !in w.store.incidents
      && c.adj == adj
    case Resolve(id, _) => id in w.store.incidents
  }

  /** One step; a step that cannot happen changes nothing. */
  ghost function Next(w: World, step: Step, adj: Adjacency): World {
    if !Possible(w, step, adj) then w
    else match step
      case Resolve(id, stamp) =>
        var row := w.store.incidents[id];
        var closed := row.(status := Resolved, version := row.version + 1, updatedAt := stamp);
        w.(store := w.store.(incidents := w.store.incidents[id := closed]))
      case Arrive(s, c) =>
        var n := Normalize(s);
        var store := Handled(w.store, s, c);
        match Verdict(w.store, n, c)
        case Duplicate => w.(store := store)
        case Attached(id) => World(store, w.accepted + [SignalRow(id, n)], w.openings)
        case OpenedNew(id) => World(store, w.accepted + [SignalRow(id, n)], w.openings + [id])
  }

  ghost function Run(steps: seq<Step>, adj: Adjacency): World {
    if steps == [] then EMPTY
    else Next(Run(steps[..|steps| - 1], adj), steps[|steps| - 1], adj)
  }

  // ----- Folds over the accepted signals -----

  function SignalsOf(accepted: seq<SignalRow>, id: IncidentId): seq<Signal> {
    if accepted == [] then []
    else
      var earlier, last := SignalsOf(accepted[..|accepted| - 1], id), accepted[|accepted| - 1];
      if last.incident == id then earlier + [last.signal] else earlier
  }

  function Worst(signals: seq<Signal>): Severity
    requires signals != []
  {
    var last := signals[|signals| - 1].severity;
    if |signals| == 1 then last else MoreSevere(Worst(signals[..|signals| - 1]), last)
  }

  function FirstSeen(signals: seq<Signal>): seq<string> {
    if signals == [] then []
    else
      var earlier, last := FirstSeen(signals[..|signals| - 1]), signals[|signals| - 1].service;
      if last in earlier then earlier else earlier + [last]
  }

  /** Worst is an upper bound that is attained. */
  lemma {:induction false} WorstIsMostSevere(signals: seq<Signal>)
    requires signals != []
    ensures forall i :: 0 <= i < |signals| ==> Rank(Worst(signals)) <= Rank(signals[i].severity)
    ensures exists i :: 0 <= i < |signals| && Worst(signals) == signals[i].severity
  {
    var n := |signals| - 1;
    assert signals[n].severity == signals[n].severity;
    if n == 0 {
    } else {
      var earlier := signals[..n];
      WorstIsMostSevere(earlier);
      var i :| 0 <= i < n && Worst(earlier) == earlier[i].severity;
      assert signals[i] == earlier[i];
      assert forall j :: 0 <= j < n ==> signals[j] == earlier[j];
      assert Worst(signals) == signals[i].severity || Worst(signals) == signals[n].severity;
    }
  }

  /** Position k holds a service that first occurs at signal `at[k]`, and these positions increase. */
  ghost predicate OccursFirstAt(signals: seq<Signal>, services: seq<string>, at: seq<nat>) {
    && |at| == |services|
    && (forall k :: 0 <= k < |at| ==> at[k] < |signals| && signals[at[k]].service == services[k])
    && (forall k, i :: 0 <= k < |at| && 0 <= i < at[k] ==> signals[i].service != services[k])
    && (forall j, k :: 0 <= j < k < |at| ==> at[j] < at[k])
  }

  function FirstPositions(signals: seq<Signal>): seq<nat> {
    if signals == [] then []
    else
      var n := |signals| - 1;
      FirstPositions(signals[..n]) + if signals[n].service in FirstSeen(signals[..n]) then [] else [n]
  }

  lemma OccurrencesExtend(signals: seq<Signal>, services: seq<string>, at: seq<nat>, s: Signal)
    requires OccursFirstAt(signals, services, at)
    requires forall i :: 0 <= i < |signals| ==> signals[i].service in services
    ensures if s.service in services then OccursFirstAt(signals + [s], services, at)
            else OccursFirstAt(signals + [s], services + [s.service], at + [|signals|])
  {
  }

  /** FirstSeen lists exactly the signals' services, in the order of their first occurrence, once each. */
  lemma {:induction false} FirstSeenInOrder(signals: seq<Signal>)
    ensures OccursFirstAt(signals, FirstSeen(signals), FirstPositions(signals))
    ensures forall i :: 0 <= i < |signals| ==> signals[i].service in FirstSeen(signals)
  {
    hide OccursFirstAt;
    if signals == [] {
      NothingOccurs();
    } else {
      var n := |signals| - 1;
      FirstSeenInOrder(signals[..n]);
      OccurrencesExtend(signals[..n], FirstSeen(signals[..n]), FirstPositions(signals[..n]), signals[n]);
      assert signals == signals[..n] + [signals[n]];
      assert FirstPositions(signals[..n]) + [] == FirstPositions(signals[..n]);
    }
  }

  lemma NothingOccurs()
    ensures OccursFirstAt([], [], [])
  {
  }

  // ----- The invariant -----

  ghost predicate Summarizes(row: IncidentRow, signals: seq<Signal>) {
    signals != [] && row.severity == Worst(signals) && row.services == FirstSeen(signals)
  }

  ghost predicate RowsSummarize(w: World) {
    forall id :: id in w.store.incidents ==> Summarizes(w.store.incidents[id], SignalsOf(w.accepted, id))
  }

  ghost predicate RowsConnected(w: World, adj: Adjacency) {
    forall id :: id in w.store.incidents ==> Grown(adj, w.store.incidents[id].services)
  }

  /** The signal and audit tables hold the accepted signals, one row each. */
  ghost predicate TablesAgree(w: World) {
    && w.store.audit == w.accepted
    && (forall i :: 0 <= i < |w.accepted| ==>
          var a := w.accepted[i];
          a.incident in w.store.incidents && a.signal.id in w.store.signals && w.store.signals[a.signal.id] == a)
    && (forall id :: id in w.store.signals ==> w.store.signals[id] in w.accepted && w.store.signals[id].signal.id == id)
    && (forall i, j :: 0 <= i < j < |w.accepted| ==> w.accepted[i].signal.id != w.accepted[j].signal.id)
  }

  /** What is stored of a signal: everything as it was sent, but no alert keeps an unknown severity. */
  predicate GradedFrom(stored: Signal, sent: Signal) {
    && stored == sent.(severity := stored.severity)
    && (stored.severity != sent.severity ==> sent.kind == Alert && sent.severity == Unknown)
    && (stored.kind == Alert ==> stored.severity != Unknown)
  }

  lemma {:induction false} StoredAsSent(steps: seq<Step>, adj: Adjacency, i: nat)
    requires i < |Run(steps, adj).accepted|
    ensures exists k :: 0 <= k < |steps| && steps[k].Arrive?
                     && GradedFrom(Run(steps, adj).accepted[i].signal, steps[k].signal)
  {
    hide Decide, IsListing, Handled, Verdict;
    var earlier, last := steps[..|steps| - 1], steps[|steps| - 1];
    if i < |Run(earlier, adj).accepted| {
      StoredAsSent(earlier, adj, i);
      var k :| 0 <= k < |earlier| && earlier[k].Arrive?
            && GradedFrom(Run(earlier, adj).accepted[i].signal, earlier[k].signal);
      assert steps[k] == earlier[k];
    } else {
      assert last.Arrive? && Run(steps, adj).accepted[i].signal == Normalize(last.signal);
      assert GradedFrom(Run(steps, adj).accepted[i].signal, steps[|steps| - 1].signal);
    }
  }

  /** An incident that any alert was attached to has a known severity. */
  lemma AlertsGradeIncidents(steps: seq<Step>, adj: Adjacency, i: nat)
    requires i < |Run(steps, adj).accepted| && Run(steps, adj).accepted[i].signal.kind == Alert
    ensures var w := Run(steps, adj);
      w.accepted[i].incident in w.store.incidents && w.store.incidents[w.accepted[i].incident].severity != Unknown
  {
    hide Run, FirstSeen, Worst;
    var accepted := Run(steps, adj).accepted;
    var attached := SignalsOf(accepted, accepted[i].incident);
    RunKeeps(steps, adj);
    StoredAsSent(steps, adj, i);
    TableIsFold(steps, adj);
    AcceptedIsListed(accepted, i);
    WorstIsMostSevere(attached);
    var j :| 0 <= j < |attached| && attached[j] == accepted[i].signal;
    assert Rank(Worst(attached)) <= Rank(attached[j].severity);
  }

  /** Fencing tokens strictly increase in opening order, below the sequence's next value. */
  ghost predicate TokensOrdered(w: World) {
    && (forall id :: id in w.openings <==> id in w.store.incidents)
    && (forall i :: 0 <= i < |w.openings| ==> w.store.incidents[w.openings[i]].fencingToken < w.store.nextToken)
    && (forall i, j :: 0 <= i < j < |w.openings| ==>
          w.store.incidents[w.openings[i]].fencingToken < w.store.incidents[w.openings[j]].fencingToken)
  }

  ghost predicate Inv(w: World, adj: Adjacency) {
    RowsSummarize(w) && RowsConnected(w, adj) && TablesAgree(w) && TokensOrdered(w)
  }

  /** An attached signal is adjacent to a service that the incident already has. */
  lemma AttachIsRelated(store: Store, s: Signal, c: Context)
    requires IsListing(store.incidents, c.listing)
    requires Decide(store, s, c).Attach?
    ensures var id := Decide(store, s, c).incident;
            && id in store.incidents && store.incidents[id].status != Resolved
            && Related(c.adj, s.service, Elements(store.incidents[id].services))
  {
    var views := Views(store.incidents, c.listing);
    CorrelatePicksBest(s.service, s.severity, views, c.adj, c.now, c.window);
    var k: nat :| IsBest(views, RECENCY, JoinTest(s.service, c.adj, c.now, c.window), k)
      && Decide(store, s, c).incident == views[k].incident;
  }

  lemma GrownExtends(adj: Adjacency, services: seq<string>, service: string)
    requires Grown(adj, services) && Related(adj, service, Elements(services))
    ensures Grown(adj, services + [service])
  {
    var longer := services + [service];
    forall k | 0 < k < |longer|
      ensures Related(adj, longer[k], Elements(longer[..k]))
    {
      assert longer[..k] == services[..k];
      assert services[..|services|] == services;
    }
  }

  lemma SignalsOfSnoc(accepted: seq<SignalRow>, row: SignalRow, id: IncidentId)
    ensures SignalsOf(accepted + [row], id) ==
      if row.incident == id then SignalsOf(accepted, id) + [row.signal] else SignalsOf(accepted, id)
  {
    assert (accepted + [row])[..|accepted|] == accepted;
  }

  lemma {:induction false} NoSignalsYet(accepted: seq<SignalRow>, id: IncidentId)
    requires forall i :: 0 <= i < |accepted| ==> accepted[i].incident != id
    ensures SignalsOf(accepted, id) == []
  {
    if accepted == [] {
    } else {
      NoSignalsYet(accepted[..|accepted| - 1], id);
    }
  }

  lemma SummaryExtends(row: IncidentRow, signals: seq<Signal>, s: Signal, stamp: int)
    requires Summarizes(row, signals)
    ensures Summarizes(Extended(row, s, stamp), signals + [s])
  {
    assert (signals + [s])[..|signals|] == signals;
  }

  lemma AttachSummarizes(w: World, id: IncidentId, s: Signal, stamp: int)
    requires RowsSummarize(w) && id in w.store.incidents
    ensures RowsSummarize(World(AttachTo(w.store, id, s, stamp), w.accepted + [SignalRow(id, s)], w.openings))
  {
    hide Extended, Summarizes, SignalsOf;
    forall i | i in w.store.incidents
      ensures Summarizes(AttachTo(w.store, id, s, stamp).incidents[i], SignalsOf(w.accepted + [SignalRow(id, s)], i))
    {
      SignalsOfSnoc(w.accepted, SignalRow(id, s), i);
      if i == id {
        SummaryExtends(w.store.incidents[id], SignalsOf(w.accepted, id), s, stamp);
      }
    }
  }

  lemma FirstSummary(row: IncidentRow, s: Signal)
    requires row.severity == s.severity && row.services == [s.service]
    ensures Summarizes(row, [s])
  {
    assert [s][..0] == [];
  }

  lemma OpenSummarizes(w: World, id: IncidentId, s: Signal, stamp: int)
    requires RowsSummarize(w) && TablesAgree(w) && id !in w.store.incidents
    ensures RowsSummarize(World(OpenWith(w.store, id, s, stamp), w.accepted + [SignalRow(id, s)], w.openings + [id]))
  {
    hide Summarizes, SignalsOf;
    NoSignalsYet(w.accepted, id);
    var store := OpenWith(w.store, id, s, stamp);
    FirstSummary(store.incidents[id], s);
    forall i | i in store.incidents
      ensures Summarizes(store.incidents[i], SignalsOf(w.accepted + [SignalRow(id, s)], i))
    {
      SignalsOfSnoc(w.accepted, SignalRow(id, s), i);
      assert i == id ==> SignalsOf(w.accepted, id) + [s] == [s];
    }
  }

  lemma AttachAgrees(w: World, id: IncidentId, s: Signal, stamp: int)
    requires TablesAgree(w) && id in w.store.incidents && s.id !in w.store.signals
    ensures TablesAgree(World(AttachTo(w.store, id, s, stamp), w.accepted + [SignalRow(id, s)], w.openings))
  {
  }

  lemma OpenAgrees(w: World, id: IncidentId, s: Signal, stamp: int)
    requires TablesAgree(w) && s.id !in w.store.signals
    ensures TablesAgree(World(OpenWith(w.store, id, s, stamp), w.accepted + [SignalRow(id, s)], w.openings + [id]))
  {
  }

  lemma ArriveKeeps(w: World, s: Signal, c: Context)
    requires Inv(w, c.adj) && Possible(w, Arrive(s, c), c.adj)
    ensures Inv(Next(w, Arrive(s, c), c.adj), c.adj)
  {
    hide Decide, AttachTo, OpenWith, TablesAgree, RowsSummarize, Grown;
    var n := Normalize(s);
    match Verdict(w.store, n, c)
    case Duplicate =>
      DuplicateKeeps(w, Handled(w.store, s, c).nextToken, c.adj);
    case Attached(id) =>
      AttachIsRelated(w.store, n, c);
      AttachSummarizes(w, id, n, c.stamp);
      AttachAgrees(w, id, n, c.stamp);
      AttachGrows(w, id, n, c.stamp, c.adj);
      AttachKeepsTokens(w, id, n, c.stamp);
    case OpenedNew(id) =>
      OpenSummarizes(w, id, n, c.stamp);
      OpenAgrees(w, id, n, c.stamp);
      OpenGrows(w, id, n, c.stamp, c.adj);
      OpenOrdersTokens(w, id, n, c.stamp);
  }

  lemma DuplicateKeeps(w: World, token: nat, adj: Adjacency)
    requires Inv(w, adj) && token >= w.store.nextToken
    ensures Inv(w.(store := w.store.(nextToken := token)), adj)
  {
  }

  lemma AttachGrows(w: World, id: IncidentId, s: Signal, stamp: int, adj: Adjacency)
    requires RowsConnected(w, adj) && id in w.store.incidents
    requires Related(adj, s.service, Elements(w.store.incidents[id].services))
    ensures RowsConnected(World(AttachTo(w.store, id, s, stamp), w.accepted + [SignalRow(id, s)], w.openings), adj)
  {
    GrownExtends(adj, w.store.incidents[id].services, s.service);
  }

  lemma OpenGrows(w: World, id: IncidentId, s: Signal, stamp: int, adj: Adjacency)
    requires RowsConnected(w, adj)
    ensures RowsConnected(World(OpenWith(w.store, id, s, stamp), w.accepted + [SignalRow(id, s)], w.openings + [id]), adj)
  {
  }

  lemma AttachKeepsTokens(w: World, id: IncidentId, s: Signal, stamp: int)
    requires TokensOrdered(w) && id in w.store.incidents
    ensures TokensOrdered(World(AttachTo(w.store, id, s, stamp), w.accepted + [SignalRow(id, s)], w.openings))
  {
  }

  lemma OpenOrdersTokens(w: World, id: IncidentId, s: Signal, stamp: int)
    requires TokensOrdered(w) && id !in w.store.incidents
    ensures TokensOrdered(World(OpenWith(w.store, id, s, stamp), w.accepted + [SignalRow(id, s)], w.openings + [id]))
  {
  }

  lemma NextKeeps(w: World, step: Step, adj: Adjacency)
    requires Inv(w, adj)
    ensures Inv(Next(w, step, adj), adj)
  {
    if Possible(w, step, adj) {
      match step
      case Arrive(s, c) => ArriveKeeps(w, s, c);
      case Resolve(id, stamp) => ResolveKeeps(w, id, stamp, adj);
    }
  }

  lemma ResolveKeeps(w: World, id: IncidentId, stamp: int, adj: Adjacency)
    requires Inv(w, adj) && id in w.store.incidents
    ensures Inv(Next(w, Resolve(id, stamp), adj), adj)
  {
    hide SignalsOf, Worst, FirstSeen, Grown;
    var row := w.store.incidents[id];
    var closed := row.(status := Resolved, version := row.version + 1, updatedAt := stamp);
    assert Summarizes(row, SignalsOf(w.accepted, id));
    assert Summarizes(closed, SignalsOf(w.accepted, id));
  }

  lemma {:induction false} RunKeeps(steps: seq<Step>, adj: Adjacency)
    ensures Inv(Run(steps, adj), adj)
  {
    if steps == [] {
    } else {
      RunKeeps(steps[..|steps| - 1], adj);
      NextKeeps(Run(steps[..|steps| - 1], adj), steps[|steps| - 1], adj);
    }
  }

  // ----- Results over every run -----

  /** The services of every incident induce a connected subgraph of the topology. */
  lemma {:induction false} IncidentsAreConnected(steps: seq<Step>, adj: Adjacency, id: IncidentId)
    requires Symmetric(adj) && id in Run(steps, adj).store.incidents
    ensures Connected(adj, Elements(Run(steps, adj).store.incidents[id].services))
  {
    RunKeeps(steps, adj);
    GrownIsConnected(adj, Run(steps, adj).store.incidents[id].services);
  }

  /**
    The incident table is a fold over the accepted signals: severity is the most severe one attached,
    services are theirs in first-seen order; and every stored signal's service is on its incident.
  */
  lemma {:induction false} TableIsFold(steps: seq<Step>, adj: Adjacency)
    ensures var w := Run(steps, adj);
      && (forall id :: id in w.store.incidents ==>
            var attached := SignalsOf(w.accepted, id);
            && attached != []
            && w.store.incidents[id].severity == Worst(attached)
            && w.store.incidents[id].services == FirstSeen(attached))
      && (forall id :: id in w.store.signals ==>
            var row := w.store.signals[id];
            row.incident in w.store.incidents && row.signal.service in w.store.incidents[row.incident].services)
      && w.store.audit == w.accepted
  {
    RunKeeps(steps, adj);
    var w := Run(steps, adj);
    forall id | id in w.store.signals
      ensures var row := w.store.signals[id];
              row.incident in w.store.incidents && row.signal.service in w.store.incidents[row.incident].services
    {
      var row := w.store.signals[id];
      var i :| 0 <= i < |w.accepted| && w.accepted[i] == row;
      AcceptedIsListed(w.accepted, i);
      FirstSeenInOrder(SignalsOf(w.accepted, row.incident));
    }
  }

  lemma {:induction false} AcceptedIsListed(accepted: seq<SignalRow>, i: nat)
    requires i < |accepted|
    ensures accepted[i].signal in SignalsOf(accepted, accepted[i].incident)
  {
    if i < |accepted| - 1 {
      AcceptedIsListed(accepted[..|accepted| - 1], i);
    }
  }

  /** Fencing tokens strictly increase in the order in which incidents were opened. */
  lemma TokensIncrease(steps: seq<Step>, adj: Adjacency, i: nat, j: nat)
    requires i < j < |Run(steps, adj).openings|
    ensures var w := Run(steps, adj);
      && w.openings[i] in w.store.incidents && w.openings[j] in w.store.incidents
      && w.store.incidents[w.openings[i]].fencingToken < w.store.incidents[w.openings[j]].fencingToken
  {
    RunKeeps(steps, adj);
  }

  /**
    What one arrival does, in any reachable state: a stored id changes no table, a new one adds one
    signal row and one audit row and either raises one open incident's version by one or opens one.
  */
  lemma {:induction false} ArrivalEffect(steps: seq<Step>, adj: Adjacency, s: Signal, c: Context)
    requires Possible(Run(steps, adj), Arrive(s, c), adj)
    ensures var w, w' := Run(steps, adj), Next(Run(steps, adj), Arrive(s, c), adj);
      if s.id in w.store.signals then
        w'.store == w.store.(nextToken := w'.store.nextToken) && w'.accepted == w.accepted
      else
        && w'.accepted == w.accepted + [w'.store.signals[s.id]]
        && w'.store.audit == w.store.audit + [w'.store.signals[s.id]]
        && var id := w'.store.signals[s.id].incident;
           && (forall other :: other in w.store.incidents && other != id ==>
                 other in w'.store.incidents && w'.store.incidents[other] == w.store.incidents[other])
           && if id in w.store.incidents then
                && w.store.incidents[id].status != Resolved
                && w'.store.incidents[id].version == w.store.incidents[id].version + 1
                && w'.store.incidents[id].fencingToken == w.store.incidents[id].fencingToken
                && w'.store.incidents.Keys == w.store.incidents.Keys
              else
                && w'.store.incidents.Keys == w.store.incidents.Keys + {id}
                && w'.store.incidents[id].version == 0
                && w'.store.incidents[id].fencingToken == w.store.nextToken
  {
    hide Run, Inv, Decide, IsListing;
    var w := Run(steps, adj);
    var n := Normalize(s);
    match Verdict(w.store, n, c)
    case Duplicate =>
    case Attached(id) =>
      AttachIsRelated(w.store, n, c);
    case OpenedNew(id) =>
  }

  // ----- Which incident a signal joins -----

  /** The incident was updated within the window, and one of its services is the signal's or next to it. */
  predicate InReach(row: IncidentRow, s: Signal, c: Context) {
    && row.status != Resolved
    && c.now - row.updatedAt <= c.window
    && exists o :: o in row.services && (o == s.service || (s.service in c.adj && o in c.adj[s.service]))
  }

  /** Listed and in reach. */
  predicate Candidate(store: Store, s: Signal, c: Context, id: IncidentId) {
    id in c.listing && id in store.incidents && InReach(store.incidents[id], s, c)
  }

  /** The signal has joined the incident, which no candidate outdates. */
  ghost predicate JoinsNewest(store: Store, after: Store, s: Signal, c: Context, id: IncidentId) {
    && Candidate(store, s, c, id)
    && (forall other :: Candidate(store, s, c, other) ==>
          store.incidents[other].updatedAt <= store.incidents[id].updatedAt)
    && id in after.incidents && after.incidents[id].status == Investigating && after.incidents[id].updatedAt == c.stamp
  }

  /** The signal has opened the new incident, there being no candidate. */
  ghost predicate OpenedAlone(store: Store, after: Store, s: Signal, c: Context, id: IncidentId) {
    && (forall other :: !Candidate(store, s, c, other))
    && id == c.newId && id in after.incidents
    && after.incidents[id] == IncidentRow(Opened, after.incidents[id].severity, [s.service], store.nextToken, 0, c.stamp)
  }

  lemma CandidateIsJoinable(store: Store, s: Signal, c: Context, k: nat)
    requires IsListing(store.incidents, c.listing) && k < |c.listing|
    ensures Candidate(store, s, c, c.listing[k])
        <==> Joinable(Views(store.incidents, c.listing)[k], s.service, c.adj, c.now, c.window)
  {
    var row, view := store.incidents[c.listing[k]], Views(store.incidents, c.listing)[k];
    assert view == ViewOf(c.listing[k], row);
    assert forall o :: o in row.services <==> o in view.services;
    if exists o :: o in row.services && (o == s.service || (s.service in c.adj && o in c.adj[s.service])) {
      var o :| o in row.services && (o == s.service || (s.service in c.adj && o in c.adj[s.service]));
      assert o in view.services && Adjacent(c.adj, s.service, o);
    }
    if Related(c.adj, s.service, view.services) {
      var o :| o in view.services && Adjacent(c.adj, s.service, o);
      assert o in row.services;
    }
  }

  /** What correlating decides, told by the rows: which candidate is attached to, or that there is none. */
  lemma DecisionTellsCandidates(store: Store, s: Signal, c: Context)
    requires IsListing(store.incidents, c.listing)
    ensures match Correlate(s.service, s.severity, Views(store.incidents, c.listing), c.adj, c.now, c.window)
      case Attach(id, _) =>
        && Candidate(store, s, c, id)
        && forall other :: Candidate(store, s, c, other) ==>
             store.incidents[other].updatedAt <= store.incidents[id].updatedAt
      case OpenNew(_) => forall other :: !Candidate(store, s, c, other)
  {
    hide Correlate, Candidate, Joinable, InReach;
    var views := Views(store.incidents, c.listing);
    var test := JoinTest(s.service, c.adj, c.now, c.window);
    CorrelatePicksBest(s.service, s.severity, views, c.adj, c.now, c.window);
    forall k | 0 <= k < |views|
      ensures test(views[k]) <==> Candidate(store, s, c, c.listing[k])
    {
      CandidateIsJoinable(store, s, c, k);
    }
    forall other | Candidate(store, s, c, other)
      ensures exists k :: 0 <= k < |views| && c.listing[k] == other
    {
      CandidateIsListed(store, s, c, other);
    }
    match Correlate(s.service, s.severity, views, c.adj, c.now, c.window)
    case Attach(id, sev) =>
      var k: nat :| IsBest(views, RECENCY, test, k) && id == views[k].incident
        && sev == MoreSevere(views[k].severity, s.severity);
      forall other | Candidate(store, s, c, other)
        ensures store.incidents[other].updatedAt <= store.incidents[id].updatedAt
      {
        var j :| 0 <= j < |views| && c.listing[j] == other;
        assert test(views[j]);
        assert RECENCY(views[j]) <= RECENCY(views[k]);
      }
    case OpenNew(_) =>
  }

  lemma CandidateIsListed(store: Store, s: Signal, c: Context, id: IncidentId)
    requires Candidate(store, s, c, id)
    ensures id in c.listing && id in store.incidents
  {
  }

  /**
    A signal that is not stored yet attaches exactly if some listed, unresolved incident was updated
    within the window and has a related service; then it is one that no other such incident outdates.
    Otherwise it opens the new incident.
  */
  lemma ArrivalJoins(steps: seq<Step>, adj: Adjacency, s: Signal, c: Context)
    requires Possible(Run(steps, adj), Arrive(s, c), adj) && s.id !in Run(steps, adj).store.signals
    ensures var store, after := Run(steps, adj).store, Next(Run(steps, adj), Arrive(s, c), adj).store;
      && s.id in after.signals && after.signals[s.id].signal.id == s.id
      && after.signals[s.id].signal.service == s.service
      && var id := after.signals[s.id].incident;
         if exists other :: Candidate(store, s, c, other) then JoinsNewest(store, after, s, c, id)
         else OpenedAlone(store, after, s, c, id)
  {
    hide Run, Inv, Correlate, IsListing, InReach;
    var w := Run(steps, adj);
    var n := Normalize(s);
    DecisionTellsCandidates(w.store, n, c);
    forall id
      ensures Candidate(w.store, n, c, id) <==> Candidate(w.store, s, c, id)
    {
      SameReach(w.store, s, c, id);
    }
  }

  lemma SameReach(store: Store, s: Signal, c: Context, id: IncidentId)
    ensures Candidate(store, Normalize(s), c, id) <==> Candidate(store, s, c, id)
  {
  }
}
