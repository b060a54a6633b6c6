/**
  The first half of main in hupsim.pl: routers and queues are built from the lines of a
  map file, an addRoute in both directions for every line.
 */
module MapFile {
  import opened Paths
  import opened Routers

  /** One line of the map file. */
  datatype Line = Line(from: nat, to: nat, bps: nat, latency: real, max: nat)

  /** No two routers share a queue. */
  ghost predicate Separate(vs: seq<Router?>)
    reads All(vs)`routes
  {
    forall i: nat, j: nat, k: nat :: Edge(vs, i, j) && Edge(vs, k, j) && vs[i].routes[j] == vs[k].routes[j] ==> i == k
  }

  /** Every queue is empty, and fast enough to have a rate. */
  ghost predicate Idle(vs: seq<Router?>)
    reads All(vs)`routes, Queues(vs)
  {
    forall i: nat, j: nat :: Edge(vs, i, j) ==>
      vs[i].routes[j].Valid() && vs[i].routes[j].queue == [] && vs[i].routes[j].rate > 0
  }

  ghost function Queues(vs: seq<Router?>): set<NSQueue>
    reads All(vs)`routes
  {
    set i: nat, j: nat | i < |vs| && vs[i] != null && j < |vs[i].routes| && vs[i].routes[j] != null :: vs[i].routes[j]
  }

  /** What a queue does to packets: its rate in bytes a second, its latency, and how many it holds. */
  datatype Link = Link(rate: nat, latency: real, max: nat)

  function LinkOf(q: NSQueue): Link {
    Link(q.rate, q.latency, q.max)
  }

  /** The links of the network, by the numbers of the routers they join. */
  ghost function LinksOf(vs: seq<Router?>): (m: map<(nat, nat), Link>)
    requires Network(vs)
    reads All(vs)`routes
    ensures m.Keys == Topology(vs).edges
  {
    TopologyIsWellFormed(vs);
    map e | e in Topology(vs).edges :: LinkOf(vs[e.0].routes[e.1])
  }

  lemma LinksAre(vs: seq<Router?>, m: map<(nat, nat), Link>)
    requires Network(vs) && (forall i: nat, j: nat :: (i, j) in m <==> Edge(vs, i, j))
    requires forall i: nat, j: nat :: Edge(vs, i, j) ==> m[(i, j)] == LinkOf(vs[i].routes[j])
    ensures LinksOf(vs) == m
  {
    TopologyIsWellFormed(vs);
    hide Network, Edge, Topology;
    var links := LinksOf(vs);
    forall e: (nat, nat)
      ensures e in links <==> e in m
      ensures e in m ==> links[e] == m[e]
    {
      assert e == (e.0, e.1);
    }
  }

  lemma LinkAt(vs: seq<Router?>, i: nat, j: nat)
    requires Network(vs) && Edge(vs, i, j)
    ensures (i, j) in LinksOf(vs) && LinksOf(vs)[(i, j)] == LinkOf(vs[i].routes[j])
  {
    TopologyIsWellFormed(vs);
  }

  /** A network just read in, up to some line. */
  ghost predicate Fresh(vs: seq<Router?>, nodes: map<(nat, nat), nat>)
    reads All(vs), Queues(vs)
  {
    && Network(vs) && Separate(vs) && Idle(vs)
    && forall i :: 0 <= i < |vs| && vs[i] != null ==> IsNew(vs[i], nodes)
  }

  ghost predicate IsNew(r: Router, nodes: map<(nat, nat), nat>)
    reads r`predecessor, r`sent
  {
    r.predecessor == null && r.sent == [] && r.nodes == nodes
  }

  lemma TopologyIs(vs: seq<Router?>, g: Graph)
    requires Network(vs) && g.nodes == Nodes(vs, |vs|)
    requires forall i: nat, j: nat :: (i, j) in g.edges <==> Edge(vs, i, j)
    ensures Topology(vs) == g
  {
    TopologyIsWellFormed(vs);
    hide Network, Edge;
    var t := Topology(vs);
    forall e: (nat, nat)
      ensures e in t.edges <==> e in g.edges
    {
      assert e == (e.0, e.1);
    }
  }

  /** r is vs, perhaps longer, and perhaps with a new router numbered id that has no queues yet. */
  ghost predicate Extended(vs: seq<Router?>, r: seq<Router?>, id: nat, nodes: map<(nat, nat), nat>)
    reads All(r)
  {
    && |vs| <= |r| && id < |r| && r[id] != null && r[id].id == id
    && (forall i :: 0 <= i < |r| && i != id ==> r[i] == if i < |vs| then vs[i] else null)
    && (|| r[id] == (if id < |vs| then vs[id] else null)
        || (r[id].routes == [] && IsNew(r[id], nodes) && (id < |vs| ==> vs[id] == null)))
  }

  lemma EdgesOfExtended(vs: seq<Router?>, r: seq<Router?>, id: nat, nodes: map<(nat, nat), nat>)
    requires Fresh(vs, nodes) && Extended(vs, r, id, nodes)
    ensures forall i: nat, j: nat :: Edge(r, i, j) <==> Edge(vs, i, j)
    ensures Fresh(r, nodes) && Topology(r) == Topology(vs).(nodes := Topology(vs).nodes + {id})
            && Queues(r) <= Queues(vs)
  {
    TopologyIsWellFormed(vs);
    assert forall i: nat, j: nat :: Edge(r, i, j) <==> Edge(vs, i, j);
    assert forall i: nat, j: nat :: Edge(r, i, j) ==> r[i] == vs[i];
    assert Separate(r) && Idle(r);
    assert Network(r);
    TopologyIs(r, Topology(vs).(nodes := Topology(vs).nodes + {id}));
  }

  lemma LinksOfExtended(vs: seq<Router?>, r: seq<Router?>, id: nat, nodes: map<(nat, nat), nat>)
    requires Network(vs) && Network(r) && Extended(vs, r, id, nodes)
    ensures LinksOf(r) == LinksOf(vs)
  {
    TopologyIsWellFormed(vs);
    assert forall i: nat, j: nat :: Edge(r, i, j) <==> Edge(vs, i, j);
    assert forall i: nat, j: nat :: Edge(r, i, j) ==> r[i] == vs[i];
    hide Network, Topology, LinksOf, Extended;
    forall i: nat, j: nat | Edge(r, i, j)
      ensures (i, j) in LinksOf(vs) && LinksOf(vs)[(i, j)] == LinkOf(r[i].routes[j])
    {
      LinkAt(vs, i, j);
    }
    LinksAre(r, LinksOf(vs));
  }

  lemma FreshIsNetwork(vs: seq<Router?>, nodes: map<(nat, nat), nat>)
    requires Fresh(vs, nodes)
    ensures Network(vs)
  {
  }

  /** A router more leaves the network as it is, */
  method FreshRouter(vs: seq<Router?>, id: nat, nodes: map<(nat, nat), nat>) returns (router: Router)
    requires Fresh(vs, nodes)
    ensures fresh(router) && router.id == id && router.routes == [] && IsNew(router, nodes)
    ensures Fresh(vs, nodes) && Queues(vs) == old(Queues(vs))
  {
    router := new Router(id, nodes);
  }

  /** and its topology and links. */
  method NewRouter(vs: seq<Router?>, id: nat, nodes: map<(nat, nat), nat>) returns (router: Router)
    requires Fresh(vs, nodes)
    ensures fresh(router) && router.id == id && router.routes == [] && IsNew(router, nodes)
    ensures Fresh(vs, nodes) && Topology(vs) == old(Topology(vs)) && Queues(vs) == old(Queues(vs))
    ensures LinksOf(vs) == old(LinksOf(vs))
  {
    hide Separate, Idle, Queues, NSQueue.Valid;
    router := FreshRouter(vs, id, nodes);
  }

  /** The array with room for a router of this number, and that router in it, created now if need be. */
  method MakeRoom(vs: seq<Router?>, id: nat, nodes: map<(nat, nat), nat>) returns (r: seq<Router?>)
    requires Fresh(vs, nodes)
    ensures Extended(vs, r, id, nodes)
    ensures Fresh(vs, nodes) && Topology(vs) == old(Topology(vs)) && Queues(vs) == old(Queues(vs))
    ensures LinksOf(vs) == old(LinksOf(vs))
    ensures if id < |vs| && vs[id] != null then r[id] == vs[id] else fresh(r[id])
  {
    hide Fresh, Topology, Queues, LinksOf;
    FreshIsNetwork(vs, nodes);
    r := vs;
    if id >= |r| {
      r := r + seq(id + 1 - |r|, _ => null);
    }
    if r[id] == null {
      var router := NewRouter(vs, id, nodes);
      r := r[id := router];
    }
  }

  /** The router with this number is there, created now if need be. */
  method Ensure(vs: seq<Router?>, id: nat, nodes: map<(nat, nat), nat>) returns (r: seq<Router?>)
    requires Fresh(vs, nodes)
    ensures Fresh(r, nodes) && Queues(r) <= old(Queues(vs)) && id < |r| && r[id] != null && r[id].id == id
    ensures |vs| <= |r| && forall i :: 0 <= i < |r| && i != id ==> r[i] == if i < |vs| then vs[i] else null
    ensures if id < |vs| && vs[id] != null then r[id] == vs[id] else fresh(r[id])
    ensures Topology(r) == old(Topology(vs)).(nodes := old(Topology(vs)).nodes + {id})
    ensures LinksOf(r) == old(LinksOf(vs))
  {
    hide Fresh, Queues, Topology, IsNew, LinksOf, Network;
    r := MakeRoom(vs, id, nodes);
    EdgesOfExtended(vs, r, id, nodes);
    FreshIsNetwork(vs, nodes);
    FreshIsNetwork(r, nodes);
    LinksOfExtended(vs, r, id, nodes);
  }

  ghost function RoutesOf(vs: seq<Router?>): (r: seq<seq<NSQueue?>>)
    reads All(vs)
    ensures |r| == |vs|
  {
    seq(|vs|, i requires 0 <= i < |vs| reads All(vs) => if vs[i] == null then [] else vs[i].routes)
  }

  ghost predicate HadEdge(before: seq<seq<NSQueue?>>, i: nat, j: nat) {
    i < |before| && j < |before[i]| && before[i][j] != null
  }

  /** Of a network with these routes, router a has got queue q to b in the place of an old one or of none. */
  ghost predicate Rerouted(vs: seq<Router?>, before: seq<seq<NSQueue?>>, a: Router, b: Router, q: NSQueue)
    reads All(vs)`routes
  {
    && |before| == |vs| && a in vs && b in vs && q.dest == b
    && (forall i: nat :: i < |vs| && vs[i] != null ==> vs[i].id == i)
    && (forall i: nat, j: nat :: HadEdge(before, i, j) ==>
          before[i][j] != q && vs[i] != null && j < |vs| && vs[j] != null && before[i][j].dest == vs[j])
    && (forall i: nat, j: nat :: Edge(vs, i, j) <==> HadEdge(before, i, j) || (i == a.id && j == b.id))
    && (forall i: nat, j: nat :: Edge(vs, i, j) ==>
        vs[i].routes[j] == if i == a.id && j == b.id then q else before[i][j])
  }

  lemma NetworkAfter(vs: seq<Router?>, before: seq<seq<NSQueue?>>, a: Router, b: Router, q: NSQueue)
    requires Rerouted(vs, before, a, b, q)
    ensures Network(vs)
  {
    forall i: nat, j: nat | Edge(vs, i, j)
      ensures j < |vs| && vs[j] != null && vs[i].routes[j].dest == vs[j]
    {
      assert HadEdge(before, i, j) || (i == a.id && j == b.id);
    }
    assert forall i, j :: 0 <= i < |vs| && vs[i] != null && 0 <= j < |vs[i].routes| && vs[i].routes[j] != null ==>
        Edge(vs, i, j);
  }

  lemma SeparateAfter(vs: seq<Router?>, before: seq<seq<NSQueue?>>, a: Router, b: Router, q: NSQueue)
    requires Rerouted(vs, before, a, b, q)
    requires forall i: nat, j: nat, k: nat ::
              HadEdge(before, i, j) && HadEdge(before, k, j) && before[i][j] == before[k][j] ==> i == k
    ensures Separate(vs)
  {
  }

  lemma EdgesBefore(vs: seq<Router?>, g: Graph, before: seq<seq<NSQueue?>>, a: Router, b: Router)
    requires Network(vs) && Separate(vs) && Idle(vs) && g == Topology(vs) && before == RoutesOf(vs) && a in vs
            && b in vs
    ensures a.id < |vs| && b.id < |vs| && vs[a.id] == a && vs[b.id] == b && g.nodes == Nodes(vs, |vs|)
    ensures forall i: nat, j: nat :: (i, j) in g.edges <==> HadEdge(before, i, j)
    ensures forall i: nat, j: nat :: HadEdge(before, i, j) ==>
              && i < |vs| && vs[i] != null && j < |vs[i].routes| && vs[i].routes[j] == before[i][j]
              && before[i][j].Valid() && before[i][j].queue == [] && before[i][j].rate > 0 && before[i][j] in Queues(vs)
    ensures forall i: nat, j: nat, k: nat ::
              HadEdge(before, i, j) && HadEdge(before, k, j) && before[i][j] == before[k][j] ==> i == k
  {
    TopologyIsWellFormed(vs);
    assert vs[a.id] == a && vs[b.id] == b;
    assert forall i: nat, j: nat :: Edge(vs, i, j) <==> HadEdge(before, i, j);
  }

  lemma IdleAfter(vs: seq<Router?>, before: seq<seq<NSQueue?>>, a: Router, b: Router, q: NSQueue)
    requires Rerouted(vs, before, a, b, q) && q.Valid() && q.queue == [] && q.rate > 0
    requires forall i: nat, j: nat :: HadEdge(before, i, j) ==>
               before[i][j].Valid() && before[i][j].queue == [] && before[i][j].rate > 0
    ensures Idle(vs)
  {
    hide NSQueue.Valid;
    forall i: nat, j: nat | Edge(vs, i, j)
      ensures vs[i].routes[j].Valid() && vs[i].routes[j].queue == [] && vs[i].routes[j].rate > 0
    {
      assert HadEdge(before, i, j) || (i == a.id && j == b.id);
    }
  }

  lemma TopologyAfter(vs: seq<Router?>, before: seq<seq<NSQueue?>>, a: Router, b: Router, q: NSQueue, g: Graph)
    requires Network(vs) && Rerouted(vs, before, a, b, q) && g.nodes == Nodes(vs, |vs|)
    requires forall i: nat, j: nat :: (i, j) in g.edges <==> HadEdge(before, i, j)
    ensures Topology(vs) == g.(edges := g.edges + {(a.id, b.id)})
  {
    TopologyIs(vs, g.(edges := g.edges + {(a.id, b.id)}));
  }

  /** The link a line describes: bits become whole bytes, and a limit of zero QUEUEMAX. */
  function LinkFor(l: Line): Link {
    Link(l.bps / 8, l.latency, if l.max == 0 then QUEUEMAX else l.max)
  }

  lemma LinksAfter(vs: seq<Router?>, before: seq<seq<NSQueue?>>, a: Router, b: Router, q: NSQueue,
                   links: map<(nat, nat), Link>)
    requires Network(vs) && Rerouted(vs, before, a, b, q)
    requires forall i: nat, j: nat :: (i, j) in links <==> HadEdge(before, i, j)
    requires forall i: nat, j: nat :: HadEdge(before, i, j) ==> links[(i, j)] == LinkOf(before[i][j])
    ensures LinksOf(vs) == links[(a.id, b.id) := LinkOf(q)]
  {
    LinksAre(vs, links[(a.id, b.id) := LinkOf(q)]);
  }

  lemma LinksBefore(vs: seq<Router?>, before: seq<seq<NSQueue?>>)
    requires Network(vs) && before == RoutesOf(vs)
    ensures forall i: nat, j: nat :: (i, j) in LinksOf(vs) <==> HadEdge(before, i, j)
    ensures forall i: nat, j: nat :: HadEdge(before, i, j) ==> LinksOf(vs)[(i, j)] == LinkOf(before[i][j])
  {
    TopologyIsWellFormed(vs);
    assert forall i: nat, j: nat :: Edge(vs, i, j) <==> HadEdge(before, i, j);
    hide Topology;
    forall i: nat, j: nat | HadEdge(before, i, j)
      ensures LinksOf(vs)[(i, j)] == LinkOf(before[i][j])
    {
      LinkAt(vs, i, j);
    }
  }

  /** addRoute of router a, seen on the whole network. */
  method Reroute(vs: seq<Router?>, a: Router, b: Router, l: Line,
                 ghost before: seq<seq<NSQueue?>>) returns (ghost q: NSQueue)
    requires Network(vs) && before == RoutesOf(vs) && a.id < |vs| && b.id < |vs| && vs[a.id] == a && vs[b.id] == b
            && l.bps >= 8
    requires forall i: nat, j: nat :: HadEdge(before, i, j) ==> before[i][j].Valid() && before[i][j].queue == []
    modifies a`routes
    ensures Rerouted(vs, before, a, b, q) && q.Valid() && q.queue == [] && q.rate > 0 && fresh(q)
    ensures LinkOf(q) == LinkFor(l)
    ensures forall i: nat, j: nat :: HadEdge(before, i, j) ==> before[i][j].Valid() && before[i][j].queue == []
  {
    assert forall i: nat, j: nat :: HadEdge(before, i, j) <==> Edge(vs, i, j);
    assert forall i: nat, j: nat :: HadEdge(before, i, j) ==> j < |vs| && vs[j] != null && before[i][j].dest == vs[j];
    a.AddRoute(b, l.bps, l.latency, l.max);
    q := a.routes[b.id];
    assert vs[a.id] == a;
  }

  lemma QueuesAfter(vs: seq<Router?>, before: seq<seq<NSQueue?>>, a: Router, b: Router, q: NSQueue, qs: set<NSQueue>)
    requires Rerouted(vs, before, a, b, q)
    requires forall i: nat, j: nat :: HadEdge(before, i, j) ==> before[i][j] in qs
    ensures Queues(vs) <= qs + {q}
  {
    forall x | x in Queues(vs)
      ensures x in qs + {q}
    {
      var i: nat, j: nat :| i < |vs| && vs[i] != null && j < |vs[i].routes| && vs[i].routes[j] == x;
      assert Edge(vs, i, j);
      assert HadEdge(before, i, j) || (i == a.id && j == b.id);
    }
  }

  /** One addRoute call of main. */
  method Connect(vs: seq<Router?>, a: Router, b: Router, l: Line, ghost nodes: map<(nat, nat), nat>)
    requires Fresh(vs, nodes) && a in vs && b in vs && l.bps >= 8
    modifies a`routes
    ensures Fresh(vs, nodes) && forall q <- Queues(vs) :: q in old(Queues(vs)) || fresh(q)
    ensures Topology(vs) == old(Topology(vs)).(edges := old(Topology(vs)).edges + {(a.id, b.id)})
    ensures LinksOf(vs) == old(LinksOf(vs))[(a.id, b.id) := LinkFor(l)]
  {
    hide Network, Separate, Idle, Topology, IsNew, Rerouted, RoutesOf, Edge, HadEdge, Queues, NSQueue.Valid, LinksOf,
        LinkFor;
    ghost var g, before, links := Topology(vs), RoutesOf(vs), LinksOf(vs);
    LinksBefore(vs, before);
    EdgesBefore(vs, g, before, a, b);
    ghost var qs := Queues(vs);
    ghost var q := Reroute(vs, a, b, l, before);
    QueuesAfter(vs, before, a, b, q, qs);
    NetworkAfter(vs, before, a, b, q);
    SeparateAfter(vs, before, a, b, q);
    IdleAfter(vs, before, a, b, q);
    TopologyAfter(vs, before, a, b, q, g);
    LinksAfter(vs, before, a, b, q, links);
  }

  /** What one line of the map file adds. */
  function WithLine(g: Graph, l: Line): Graph {
    Graph(g.nodes + {l.to} + {l.from}, g.edges + {(l.to, l.from)} + {(l.from, l.to)})
  }

  /** The topology the map file describes: every line is an edge both ways. */
  ghost function Described(lines: seq<Line>): Graph {
    if lines == [] then Graph({}, {}) else WithLine(Described(lines[..|lines| - 1]), lines[|lines| - 1])
  }

  /** The links the map file describes; of several lines between two routers the last one counts. */
  ghost function DescribedLinks(lines: seq<Line>): map<(nat, nat), Link> {
    if lines == [] then map[] else LinksWithLine(DescribedLinks(lines[..|lines| - 1]), lines[|lines| - 1])
  }

  function LinksWithLine(links: map<(nat, nat), Link>, l: Line): map<(nat, nat), Link> {
    links[(l.to, l.from) := LinkFor(l)][(l.from, l.to) := LinkFor(l)]
  }

  method AddLine(vs: seq<Router?>, l: Line, nodes: map<(nat, nat), nat>) returns (r: seq<Router?>)
    requires Fresh(vs, nodes) && l.bps >= 8
    modifies All(vs)`routes
    ensures Fresh(r, nodes) && Topology(r) == WithLine(old(Topology(vs)), l)
    ensures LinksOf(r) == LinksWithLine(old(LinksOf(vs)), l)
    ensures forall i :: 0 <= i < |r| && r[i] != null ==> r[i] in vs || fresh(r[i])
    ensures forall q <- Queues(r) :: q in old(Queues(vs)) || fresh(q)
  {
    hide Fresh, Topology, LinksOf, LinkFor;
    ghost var g := Topology(vs);
    r := Ensure(vs, l.to, nodes);
    assert Topology(r) == g.(nodes := g.nodes + {l.to});
    r := Ensure(r, l.from, nodes);
    assert Topology(r) == g.(nodes := g.nodes + {l.to} + {l.from});
    Connect(r, r[l.to], r[l.from], l, nodes);
    Connect(r, r[l.from], r[l.to], l, nodes);
  }

  /** The loop of main over the lines of the map file. */
  method ReadMap(lines: seq<Line>, nodes: map<(nat, nat), nat>) returns (vs: seq<Router?>)
    requires forall k :: 0 <= k < |lines| ==> lines[k].bps >= 8
    ensures Fresh(vs, nodes) && PredecessorsKnown(vs) && Topology(vs) == Described(lines)
    ensures LinksOf(vs) == DescribedLinks(lines)
    ensures fresh(Queues(vs)) && forall i :: 0 <= i < |vs| && vs[i] != null ==> fresh(vs[i])
  {
    hide Fresh, Topology, LinksOf;
    vs := [];
    NothingRead(vs, nodes);
    for k := 0 to |lines|
      invariant Fresh(vs, nodes) && Network(vs) && Topology(vs) == Described(lines[..k])
      invariant LinksOf(vs) == DescribedLinks(lines[..k])
      invariant fresh(Queues(vs)) && forall i :: 0 <= i < |vs| && vs[i] != null ==> fresh(vs[i])
    {
      assert lines[..k + 1][..k] == lines[..k];
      vs := AddLine(vs, lines[k], nodes);
      FreshIsNetwork(vs, nodes);
    }
    assert lines[..|lines|] == lines;
    FreshPredecessors(vs, nodes);
  }

  lemma NothingRead(vs: seq<Router?>, nodes: map<(nat, nat), nat>)
    requires vs == []
    ensures Fresh(vs, nodes) && Topology(vs) == Described([]) && LinksOf(vs) == DescribedLinks([])
  {
  }

  lemma FreshPredecessors(vs: seq<Router?>, nodes: map<(nat, nat), nat>)
    requires Fresh(vs, nodes)
    ensures PredecessorsKnown(vs)
  {
  }
}
