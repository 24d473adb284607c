/**
  The service topology used for correlation (src/aegis_services/detection/topology.py).
*/
module Topology {
  type Adjacency = map<string, set<string>>

  function Neighbours(adj: Adjacency, a: string): set<string> {
    if a in adj then adj[a] else {}
  }

  predicate Adjacent(adj: Adjacency, a: string, b: string) {
    a == b || b in Neighbours(adj, a)
  }

  predicate Related(adj: Adjacency, service: string, others: set<string>) {
    exists o :: o in others && Adjacent(adj, service, o)
  }

  ghost predicate Symmetric(adj: Adjacency) {
    forall a, b :: b in Neighbours(adj, a) ==> a in Neighbours(adj, b)
  }

  function PairsOf(svc: string, deps: seq<string>): set<(string, string)> {
    set dep | dep in deps :: (svc, dep)
  }

  /** The declared dependencies, as (service, dependency) pairs. */
  function Pairs(edges: seq<(string, seq<string>)>): set<(string, string)> {
    if edges == [] then {}
    else Pairs(edges[..|edges| - 1]) + PairsOf(edges[|edges| - 1].0, edges[|edges| - 1].1)
  }

  ghost predicate Represents(adj: Adjacency, pairs: set<(string, string)>) {
    forall a, b :: b in Neighbours(adj, a) <==> (a, b) in pairs || (b, a) in pairs
  }

  /** setdefault(a, set()).add(b) */
  function AddNeighbour(adj: Adjacency, a: string, b: string): Adjacency {
    adj[a := Neighbours(adj, a) + {b}]
  }

  class ServiceTopology {
    var adj: Adjacency

    /** Two services are neighbours exactly when one of them is declared to depend on the other. */
    constructor (edges: seq<(string, seq<string>)>)
      ensures Represents(adj, Pairs(edges))
    {
      adj := map[];
      new;
      for i := 0 to |edges|
        invariant Represents(adj, Pairs(edges[..i]))
      {
        var svc, deps := edges[i].0, edges[i].1;
        ghost var pairs := Pairs(edges[..i]);
        for k := 0 to |deps|
          invariant Represents(adj, pairs + PairsOf(svc, deps[..k]))
        {
          var dep := deps[k];
          LinkRepresents(adj, pairs + PairsOf(svc, deps[..k]), svc, dep);
          PairsOfNext(svc, deps, k, pairs);
          adj := AddNeighbour(adj, svc, dep);
          adj := AddNeighbour(adj, dep, svc);
        }
        assert deps[..|deps|] == deps;
        assert edges[..i + 1][..i] == edges[..i];
      }
      assert edges[..|edges|] == edges;
    }
  }

  lemma LinkRepresents(adj: Adjacency, pairs: set<(string, string)>, a: string, b: string)
    requires Represents(adj, pairs)
    ensures Represents(AddNeighbour(AddNeighbour(adj, a, b), b, a), pairs + {(a, b)})
  {
  }

  lemma PairsOfNext(svc: string, deps: seq<string>, k: nat, pairs: set<(string, string)>)
    requires k < |deps|
    ensures pairs + PairsOf(svc, deps[..k + 1]) == pairs + PairsOf(svc, deps[..k]) + {(svc, deps[k])}
  {
    assert deps[..k + 1] == deps[..k] + [deps[k]];
  }

  lemma {:induction false} RepresentedIsSymmetric(adj: Adjacency, pairs: set<(string, string)>)
    requires Represents(adj, pairs)
    ensures Symmetric(adj)
  {
    forall a, b | b in Neighbours(adj, a)
      ensures a in Neighbours(adj, b)
    {
      assert (a, b) in pairs || (b, a) in pairs;
    }
  }

  // ----- Connected sets of services -----

  /** Neighbouring services, one after the other, all within a set. */
  ghost predicate IsPath(adj: Adjacency, within: set<string>, path: seq<string>) {
    && path != []
    && (forall i :: 0 <= i < |path| ==> path[i] in within)
    && (forall i :: 0 < i < |path| ==> Adjacent(adj, path[i - 1], path[i]))
  }

  ghost predicate Joined(adj: Adjacency, within: set<string>, a: string, b: string) {
    exists path :: IsPath(adj, within, path) && path[0] == a && path[|path| - 1] == b
  }

  /** The services induce a connected subgraph of the topology. */
  ghost predicate Connected(adj: Adjacency, services: set<string>) {
    forall a, b :: a in services && b in services ==> Joined(adj, services, a, b)
  }

  /** Every service but the first is adjacent to an earlier one. */
  ghost predicate Grown(adj: Adjacency, services: seq<string>) {
    forall k :: 0 < k < |services| ==> Related(adj, services[k], Elements(services[..k]))
  }

  function Elements(services: seq<string>): set<string> {
    set s | s in services
  }

  lemma JoinedBack(adj: Adjacency, within: set<string>, a: string, b: string)
    requires Symmetric(adj) && Joined(adj, within, a, b)
    ensures Joined(adj, within, b, a)
  {
    var path :| IsPath(adj, within, path) && path[0] == a && path[|path| - 1] == b;
    var n := |path|;
    var back := seq(n, i requires 0 <= i < n => path[n - 1 - i]);
    forall i | 0 < i < n
      ensures Adjacent(adj, back[i - 1], back[i])
    {
      assert Adjacent(adj, path[n - 1 - i], path[n - i]);
    }
    assert IsPath(adj, within, back);
  }

  lemma JoinedOn(adj: Adjacency, within: set<string>, a: string, b: string, c: string)
    requires Joined(adj, within, a, b) && Joined(adj, within, b, c)
    ensures Joined(adj, within, a, c)
  {
    var p :| IsPath(adj, within, p) && p[0] == a && p[|p| - 1] == b;
    var q :| IsPath(adj, within, q) && q[0] == b && q[|q| - 1] == c;
    var both := p + q;
    forall i | 0 < i < |both|
      ensures Adjacent(adj, both[i - 1], both[i])
    {
      if i < |p| {
        assert Adjacent(adj, p[i - 1], p[i]);
      } else if i > |p| {
        assert Adjacent(adj, q[i - |p| - 1], q[i - |p|]);
      }
    }
    assert IsPath(adj, within, both);
  }

  lemma {:induction false} JoinedToFirst(adj: Adjacency, services: seq<string>, k: nat)
    requires Grown(adj, services) && k < |services|
    ensures Joined(adj, Elements(services), services[k], services[0])
  {
    if k == 0 {
      assert IsPath(adj, Elements(services), [services[0]]);
    } else {
      assert Related(adj, services[k], Elements(services[..k]));
      var o :| o in Elements(services[..k]) && Adjacent(adj, services[k], o);
      var j :| 0 <= j < k && services[j] == o;
      JoinedToFirst(adj, services, j);
      assert IsPath(adj, Elements(services), [services[k], services[j]]);
      JoinedOn(adj, Elements(services), services[k], services[j], services[0]);
    }
  }

  lemma {:induction false} GrownIsConnected(adj: Adjacency, services: seq<string>)
    requires Symmetric(adj) && Grown(adj, services)
    ensures Connected(adj, Elements(services))
  {
    forall a, b | a in Elements(services) && b in Elements(services)
      ensures Joined(adj, Elements(services), a, b)
    {
      var i :| 0 <= i < |services| && services[i] == a;
      var j :| 0 <= j < |services| && services[j] == b;
      JoinedToFirst(adj, services, i);
      JoinedToFirst(adj, services, j);
      JoinedBack(adj, Elements(services), b, services[0]);
      JoinedOn(adj, Elements(services), a, services[0], b);
    }
  }
}
