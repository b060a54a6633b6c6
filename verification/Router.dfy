/**
  Routers and their queues, hupsim.pl.  All routers share the vertex records: every
  router's own shortest-path computation writes the distance, done and predecessor
  fields of all the others.
 */
module Routers {
  import opened Common
  import opened Paths
  import opened Dijkstra
  import Forwarding

  type Packet = Forwarding.Packet

  const QUEUEMAX: nat := 10   // hupsim.pl:4

  /** A packet in a queue and the time from which it may leave. */
  datatype Entry = Entry(pkt: Packet, due: real)

  function TotalLength(queue: seq<Entry>): nat {
    if queue == [] then 0 else queue[0].pkt.length + TotalLength(queue[1..])
  }

  lemma {:induction false} TotalLengthOfAppend(queue: seq<Entry>, e: Entry)
    ensures TotalLength(queue + [e]) == TotalLength(queue) + e.pkt.length
  {
    if queue != [] {
      assert (queue + [e])[1..] == queue[1..] + [e];
      TotalLengthOfAppend(queue[1..], e);
    }
  }

  /**
    When a packet that comes at vtime may leave: the latency, its own transmission and
    that of all the bytes before it later.  A zero rate, at which the program would die, is
    excluded by Usable below.
   */
  function Due(latency: real, rate: nat, waiting: nat, length: nat, vtime: real): real {
    if rate == 0 then vtime else vtime + latency + (waiting + length) as real / rate as real
  }

  /** A queue of at most max entries after a packet has come to it. */
  function Joined(queue: seq<Entry>, max: nat, latency: real, rate: nat, p: Packet, vtime: real): seq<Entry> {
    if |queue| >= max then queue
    else queue + [Entry(p, Due(latency, rate, TotalLength(queue), p.length, vtime))]
  }

  class NSQueue {
    const dest: Router        // routeRef
    const rate: nat           // bytes a second
    const latency: real
    const max: nat
    var size: nat
    var dropped: nat
    var queue: seq<Entry>

    /** size, on which transmission times depend, is the number of bytes waiting. */
    ghost predicate Valid()
      reads this
    {
      size == TotalLength(queue) && |queue| <= max
    }

    /** A packet comes: a full queue needs no rate, any other divides by it. */
    ghost predicate Usable()
      reads this
    {
      Valid() && (rate > 0 || |queue| == max)
    }

    /** new; the rate is given in bits, and a limit of zero or none at all means QUEUEMAX. */
    constructor (dest: Router, bps: nat, latency: real, max: nat)
      ensures Valid() && this.dest == dest && queue == [] && dropped == 0
      ensures rate * 8 <= bps < rate * 8 + 8 && this.latency == latency
      ensures this.max == if max == 0 then QUEUEMAX else max
    {
      this.dest := dest;
      this.rate := bps / 8;
      this.latency := latency;
      this.max := if max == 0 then QUEUEMAX else max;
      size, dropped, queue := 0, 0, [];
    }

    /** enQ: a packet is either dropped and counted, or becomes the last in the queue. */
    method EnQ(p: Packet, vtime: real)
      requires Usable()
      modifies this
      ensures Valid()
      ensures queue == Joined(old(queue), max, latency, rate, p, vtime)
      ensures dropped == old(dropped) + if |old(queue)| == max then 1 else 0
    {
      if |queue| >= max {
        dropped := dropped + 1;
      } else {
        var txTime := latency + p.length as real / rate as real + vtime;
        if |queue| > 0 {
          txTime := txTime + size as real / rate as real;
        }
        DueInParts(size, p.length, rate);
        TotalLengthOfAppend(queue, Entry(p, txTime));
        queue := queue + [Entry(p, txTime)];
        size := size + p.length;
      }
    }

    /** The packet at the head leaves the queue in run. */
    method Shift() returns (e: Entry)
      requires Valid() && queue != []
      modifies this
      ensures Valid() && [e] + queue == old(queue) && dropped == old(dropped)
    {
      e := queue[0];
      queue := queue[1..];
      size := size - e.pkt.length;
    }
  }

  lemma DueInParts(a: nat, b: nat, rate: nat)
    requires rate > 0
    ensures (a + b) as real / rate as real == a as real / rate as real + b as real / rate as real
  {
  }

  const LOOPBACK: nat := 0x7F00_0001
  const HEADER: nat := 16

  /** The router behind an address, if the node file lists it; 0.0.0.0 stands for 127.0.0.1. */
  function Destination(nodes: map<(nat, nat), nat>, p: Packet): Option<nat> {
    var key := (if p.destIp == 0 then LOOPBACK else p.destIp, p.destPort);
    if key in nodes then Some(nodes[key]) else None
  }

  /** A packet goes to the router listed for its address and port, and 0.0.0.0 is the host itself, 127.0.0.1. */
  lemma DestinationIsListed(nodes: map<(nat, nat), nat>, p: Packet, d: nat)
    ensures p.destIp != 0 ==>
              (Destination(nodes, p) == Some(d) <==>
               (p.destIp, p.destPort) in nodes && nodes[(p.destIp, p.destPort)] == d)
    ensures p.destIp == 0 ==> Destination(nodes, p) == Destination(nodes, p.(destIp := 127 * 0x100_0000 + 1))
  {
  }

  /** How recv of a router ends. */
  datatype Outcome = NoSuchNode | Delivered | Enqueued | Died

  class Router {
    const id: nat
    const nodes: map<(nat, nat), nat>
    var routes: seq<NSQueue?>             // by router number, with holes
    var routingTable: map<nat, NSQueue>
    var sent: seq<Packet>                 // what has gone out on the socket
    var bytesSent: int
    var distance: nat
    var done: nat
    var predecessor: Router?

    constructor (id: nat, nodes: map<(nat, nat), nat>)
      ensures this.id == id && this.nodes == nodes && routes == [] && routingTable == map[]
      ensures sent == [] && bytesSent == 0 && predecessor == null
    {
      this.id := id;
      this.nodes := nodes;
      routes, routingTable, distance, done, predecessor := [], map[], 0, 0, null;
      sent, bytesSent := [], 0;
    }

    /** addRoute */
    method AddRoute(other: Router, bps: nat, latency: real, max: nat)
      modifies this`routes
      ensures |routes| == (if other.id < |old(routes)| then |old(routes)| else other.id + 1)
      ensures routes[other.id] != null && fresh(routes[other.id])
      ensures var q := routes[other.id];
              && q.Valid() && q.dest == other && q.queue == [] && q.dropped == 0 && q.latency == latency
              && q.rate * 8 <= bps < q.rate * 8 + 8 && q.max == if max == 0 then QUEUEMAX else max
      ensures forall j :: 0 <= j < |routes| && j != other.id ==>
                routes[j] == if j < |old(routes)| then old(routes)[j] else null
    {
      if other.id >= |routes| {
        routes := routes + seq(other.id + 1 - |routes|, _ => null);
      }
      var q := new NSQueue(other, bps, latency, max);
      routes := routes[other.id := q];
    }

    /** getQ, for a packet that is not to be delivered here: the queue, if the table names one. */
    ghost function QueueFor(p: Packet): set<NSQueue>
      reads this`routingTable
    {
      match Destination(nodes, p)
      case None => {}
      case Some(d) => if d != id && d in routingTable then {routingTable[d]} else {}
    }

    /**
      recv: a packet for no known node is dropped, one for this router goes out on its
      socket, and any other to the queue its table names; without one the program dies.
     */
    method Recv(p: Packet, vtime: real) returns (outcome: Outcome)
      requires forall q <- QueueFor(p) :: q.Usable()
      modifies this`sent, this`bytesSent
      modifies QueueFor(p)
      ensures var d := Destination(nodes, p);
              outcome == if d.None? then NoSuchNode else if d.value == id then Delivered
                         else if d.value in routingTable then Enqueued else Died
      ensures if outcome == Delivered
              then sent == old(sent) + [p] && bytesSent == old(bytesSent) + p.length - HEADER
              else sent == old(sent) && bytesSent == old(bytesSent)
      ensures outcome == Enqueued ==>
                var q := routingTable[Destination(nodes, p).value];
                && q.Valid() && q.queue == Joined(old(q.queue), q.max, q.latency, q.rate, p, vtime)
                && q.dropped == old(q.dropped) + if |old(q.queue)| == q.max then 1 else 0
    {
      var dest := Destination(nodes, p);
      if dest.None? {
        return NoSuchNode;
      }
      if dest.value == id {
        sent := sent + [p];
        bytesSent := bytesSent + (p.length - HEADER);
        return Delivered;
      }
      if dest.value !in routingTable {
        return Died;
      }
      routingTable[dest.value].EnQ(p, vtime);
      outcome := Enqueued;
    }
  }

  /** The defined entries of the array of routers. */
  ghost function All(vs: seq<Router?>): set<Router> {
    set r: Router | r in vs
  }

  /** The array index is the router number, and a queue leads to the router it is filed under. */
  ghost predicate Network(vs: seq<Router?>)
    reads All(vs)`routes
  {
    forall i :: 0 <= i < |vs| && vs[i] != null ==>
      && vs[i].id == i
      && forall j :: 0 <= j < |vs[i].routes| && vs[i].routes[j] != null ==>
           j < |vs| && vs[j] != null && vs[i].routes[j].dest == vs[j]
  }

  ghost predicate Edge(vs: seq<Router?>, i: nat, j: nat)
    reads All(vs)`routes
  {
    i < |vs| && vs[i] != null && j < |vs[i].routes| && vs[i].routes[j] != null
  }

  ghost function Nodes(vs: seq<Router?>, n: nat): set<nat>
    requires n <= |vs|
  {
    set i: nat | i < n && vs[i] != null
  }

  /** The topology. */
  ghost function Topology(vs: seq<Router?>): Graph
    reads All(vs)`routes
  {
    Graph(Nodes(vs, |vs|), set i: nat, j: nat | i < |vs| && j < |vs| && Edge(vs, i, j) :: (i, j))
  }

  lemma TopologyIsWellFormed(vs: seq<Router?>)
    requires Network(vs)
    ensures WellFormed(Topology(vs))
    ensures forall i: nat, j: nat :: (i, j) in Topology(vs).edges <==> Edge(vs, i, j)
  {
  }

  ghost function LabelsOf(vs: seq<Router?>): (l: Labels)
    reads All(vs)`distance, All(vs)`predecessor
    ensures l.dist.Keys == Nodes(vs, |vs|)
  {
    Labels(map i: nat | i in Nodes(vs, |vs|) :: vs[i].distance,
           map i: nat | i in Nodes(vs, |vs|) && vs[i].predecessor != null :: vs[i].predecessor.id)
  }

  /** Predecessors, stale ones included, are routers of the network. */
  ghost predicate PredecessorsKnown(vs: seq<Router?>)
    reads All(vs)`predecessor
  {
    forall i :: 0 <= i < |vs| && vs[i] != null && vs[i].predecessor != null ==> vs[i].predecessor in vs
  }

  ghost predicate DoneAre(vs: seq<Router?>, fin: set<nat>)
    reads All(vs)`done
  {
    forall i :: 0 <= i < |vs| && vs[i] != null ==> (vs[i].done > 0 <==> i in fin)
  }

  /** The first loop of createTable. */
  method Reset(self: Router, vs: seq<Router?>)
    requires Network(vs) && self in vs && PredecessorsKnown(vs)
    modifies All(vs)`distance, All(vs)`done
    ensures Visited(Topology(vs), self.id, LabelsOf(vs), {}) && DoneAre(vs, {})
  {
    for k := 0 to |vs|
      invariant forall i :: 0 <= i < k && vs[i] != null ==>
                  vs[i].done == 0 && vs[i].distance == if i == self.id then 0 else INFINITY
    {
      if vs[k] != null {
        vs[k].done := 0;
        if vs[k].id == self.id {
          vs[k].distance := 0;
        } else {
          vs[k].distance := INFINITY;
        }
      }
    }
    TopologyIsWellFormed(vs);
    assert vs[self.id] == self;
    StartIsVisited(Topology(vs), self.id, LabelsOf(vs));
  }

  /** The search for the next vertex to visit. */
  method PickNext(vs: seq<Router?>, ghost fin: set<nat>) returns (next: Router)
    requires Network(vs) && DoneAre(vs, fin)
    requires forall i :: 0 <= i < |vs| && vs[i] != null ==> vs[i].distance <= INFINITY
    requires exists i :: 0 <= i < |vs| && vs[i] != null && i !in fin
    ensures next in vs && Nearest(Topology(vs), LabelsOf(vs), fin, next.id)
  {
    var found: Router? := null;
    var min := INFINITY + 1;
    for k := 0 to |vs|
      invariant found == null ==> min == INFINITY + 1 && forall i :: 0 <= i < k && vs[i] != null ==> i in fin
      invariant found != null ==> found in vs && found.id !in fin && found.distance == min
      invariant forall i :: 0 <= i < k && vs[i] != null && i !in fin ==> min <= vs[i].distance
    {
      if vs[k] != null && vs[k].done == 0 && vs[k].distance < min {
        found := vs[k];
        min := vs[k].distance;
      }
    }
    next := found;
    assert vs[next.id] == next;
  }

  /** Vertex i as the edge loop for next leaves it, when its edge has been seen or not. */
  ghost predicate AsRelaxed(vs: seq<Router?>, l: Labels, next: nat, i: nat, seen: bool)
    requires i < |vs| && vs[i] != null && i in l.dist && next in l.dist
    reads All(vs)`routes, All(vs)`distance, All(vs)`predecessor
  {
    var improved := seen && Edge(vs, next, i) && l.dist[i] > l.dist[next] + 1;
    && vs[i].distance == (if improved then l.dist[next] + 1 else l.dist[i])
    && (improved ==> vs[i].predecessor != null && vs[i].predecessor.id == next)
    && (!improved ==> (vs[i].predecessor != null <==> i in l.pred))
    && (!improved && vs[i].predecessor != null ==> vs[i].predecessor.id == l.pred[i])
  }

  lemma PlaceInArray(vs: seq<Router?>, r: Router)
    requires Network(vs) && r in vs
    ensures r.id < |vs| && vs[r.id] == r
    ensures forall i :: 0 <= i < |vs| && vs[i] == r ==> i == r.id
  {
  }

  ghost predicate AllRelaxed(vs: seq<Router?>, l: Labels, next: nat, j: nat)
    requires l.dist.Keys == Nodes(vs, |vs|) && next in l.dist
    reads All(vs)`routes, All(vs)`distance, All(vs)`predecessor
  {
    forall i: nat :: i in Nodes(vs, |vs|) ==> AsRelaxed(vs, l, next, i, i < j)
  }

  /** One turn of the edge loop of createTable. */
  method RelaxEdge(next: Router, vs: seq<Router?>, j: nat, ghost l: Labels)
    requires Network(vs) && PredecessorsKnown(vs) && next in vs && j < |next.routes|
    requires l.dist.Keys == Nodes(vs, |vs|) && next.id in l.dist && AllRelaxed(vs, l, next.id, j)
    modifies All(vs)`distance, All(vs)`predecessor
    ensures AllRelaxed(vs, l, next.id, j + 1) && PredecessorsKnown(vs)
  {
    PlaceInArray(vs, next);
    assert AsRelaxed(vs, l, next.id, next.id, next.id < j);
    if next.routes[j] != null {
      var v := next.routes[j].dest;
      assert j in Nodes(vs, |vs|) && vs[j] == v && AsRelaxed(vs, l, next.id, j, j < j);
      var weight := next.distance + 1;
      if v.distance > weight {
        v.distance := weight;
        v.predecessor := next;
      }
    }
    forall i: nat | i in Nodes(vs, |vs|)
      ensures AsRelaxed(vs, l, next.id, i, i < j + 1)
    {
      assert old(AsRelaxed(vs, l, next.id, i, i < j));
      PlaceInArray(vs, vs[i]);
    }
  }

  /** The edge loop of createTable for one vertex. */
  method Relax(next: Router, vs: seq<Router?>)
    requires Network(vs) && PredecessorsKnown(vs) && next in vs
    modifies All(vs)`distance, All(vs)`predecessor
    ensures LabelsOf(vs) == Relaxed(old(Topology(vs)), old(LabelsOf(vs)), next.id)
    ensures Network(vs) && Topology(vs) == old(Topology(vs)) && PredecessorsKnown(vs)
  {
    ghost var l := LabelsOf(vs);
    PlaceInArray(vs, next);
    assert next.id in l.dist;
    for j := 0 to |next.routes|
      invariant PredecessorsKnown(vs) && AllRelaxed(vs, l, next.id, j)
    {
      RelaxEdge(next, vs, j, l);
    }
    RelaxedLabels(vs, l, next);
  }

  lemma RelaxedLabels(vs: seq<Router?>, l: Labels, next: Router)
    requires Network(vs) && l.dist.Keys == Nodes(vs, |vs|) && l.pred.Keys <= Nodes(vs, |vs|)
    requires next in vs && vs[next.id] == next
    requires AllRelaxed(vs, l, next.id, |next.routes|)
    ensures LabelsOf(vs) == Relaxed(Topology(vs), l, next.id)
  {
    TopologyIsWellFormed(vs);
    var g, r, m := Topology(vs), Relaxed(Topology(vs), l, next.id), LabelsOf(vs);
    forall i: nat | i in g.nodes
      ensures m.dist[i] == r.dist[i] && (i in m.pred <==> i in r.pred) && (i in m.pred ==> m.pred[i] == r.pred[i])
    {
      RelaxedLabel(vs, l, next, i);
    }
    hide Relaxed, Topology, LabelsOf, Network;
    assert m.dist == r.dist;
    assert m.pred == r.pred;
  }

  lemma RelaxedLabel(vs: seq<Router?>, l: Labels, next: Router, i: nat)
    requires Network(vs) && l.dist.Keys == Nodes(vs, |vs|) && l.pred.Keys <= Nodes(vs, |vs|)
    requires next in vs && vs[next.id] == next
    requires i in Nodes(vs, |vs|) && AsRelaxed(vs, l, next.id, i, i < |next.routes|)
    ensures var r, m := Relaxed(Topology(vs), l, next.id), LabelsOf(vs);
            && r.pred.Keys <= Nodes(vs, |vs|) && m.pred.Keys <= Nodes(vs, |vs|)
            && m.dist[i] == r.dist[i] && (i in m.pred <==> i in r.pred) && (i in m.pred ==> m.pred[i] == r.pred[i])
  {
    TopologyIsWellFormed(vs);
    assert (next.id, i) in Topology(vs).edges <==> Edge(vs, next.id, i);
    hide Network;
  }

  lemma NodesCount(vs: seq<Router?>, k: nat)
    requires k < |vs|
    ensures Nodes(vs, k + 1) == if vs[k] == null then Nodes(vs, k) else Nodes(vs, k) + {k}
    ensures vs[k] != null ==> |Nodes(vs, k + 1)| == |Nodes(vs, k)| + 1
  {
    assert Nodes(vs, k + 1) == if vs[k] == null then Nodes(vs, k) else Nodes(vs, k) + {k};
  }

  lemma SomeoneIsLeft(vs: seq<Router?>, fin: set<nat>, k: nat)
    requires k < |vs| && vs[k] != null && |fin| == |Nodes(vs, k)|
    ensures exists i :: 0 <= i < |vs| && vs[i] != null && i !in fin
  {
    if Nodes(vs, |vs|) <= fin {
      SubsetIsNoLarger(Nodes(vs, |vs|), fin);
      NodesCount(vs, k);
      SubsetIsNoLarger(Nodes(vs, k + 1), Nodes(vs, |vs|));
    }
    var i :| i in Nodes(vs, |vs|) && i !in fin;
  }

  lemma FullSet(a: set<nat>, b: set<nat>)
    requires a <= b && |a| == |b|
    ensures a == b
  {
    if x :| x in b && x !in a {
      SubsetIsNoLarger(a, b - {x});
    }
  }

  method MarkDone(vs: seq<Router?>, next: Router, ghost fin: set<nat>)
    requires Network(vs) && PredecessorsKnown(vs) && next in vs && DoneAre(vs, fin)
    modifies All(vs)`done
    ensures Network(vs) && PredecessorsKnown(vs) && DoneAre(vs, fin + {next.id})
    ensures Topology(vs) == old(Topology(vs)) && LabelsOf(vs) == old(LabelsOf(vs))
  {
    PlaceInArray(vs, next);
    next.done := next.done + 1;
  }

  /** One turn of the second loop of createTable. */
  method VisitOne(src: nat, vs: seq<Router?>, ghost fin: set<nat>) returns (ghost fin': set<nat>)
    requires Network(vs) && PredecessorsKnown(vs)
    requires Visited(Topology(vs), src, LabelsOf(vs), fin) && DoneAre(vs, fin)
    requires exists i :: 0 <= i < |vs| && vs[i] != null && i !in fin
    modifies All(vs)`distance, All(vs)`predecessor, All(vs)`done
    ensures Network(vs) && PredecessorsKnown(vs) && Topology(vs) == old(Topology(vs))
    ensures Visited(Topology(vs), src, LabelsOf(vs), fin') && DoneAre(vs, fin')
    ensures |fin'| == |fin| + 1
  {
    hide Visited, Relaxed, Nearest, Network, PredecessorsKnown, LabelsOf, Topology, DoneAre, Nodes;
    BoundedLabels(vs, src, fin);
    var next := PickNext(vs, fin);
    VisitKeeps(Topology(vs), src, LabelsOf(vs), fin, next.id);
    NearestIsNew(Topology(vs), LabelsOf(vs), fin, next.id);
    Relax(next, vs);
    MarkDone(vs, next, fin);
    fin' := fin + {next.id};
  }

  /** The second loop of createTable: as many visits as there are vertices. */
  method VisitAll(self: Router, vs: seq<Router?>)
    requires Network(vs) && self in vs && PredecessorsKnown(vs)
    requires Visited(Topology(vs), self.id, LabelsOf(vs), {}) && DoneAre(vs, {})
    modifies All(vs)`distance, All(vs)`predecessor, All(vs)`done
    ensures Visited(Topology(vs), self.id, LabelsOf(vs), Topology(vs).nodes) && PredecessorsKnown(vs)
    ensures Network(vs) && Topology(vs) == old(Topology(vs))
  {
    hide Visited, LabelsOf, Topology, PredecessorsKnown, Network, DoneAre;
    ghost var fin: set<nat> := {};
    for k := 0 to |vs|
      invariant Network(vs) && PredecessorsKnown(vs) && DoneAre(vs, fin) && Topology(vs) == old(Topology(vs))
      invariant Visited(Topology(vs), self.id, LabelsOf(vs), fin)
      invariant |fin| == |Nodes(vs, k)|
    {
      NodesCount(vs, k);
      if vs[k] != null {
        SomeoneIsLeft(vs, fin, k);
        fin := VisitOne(self.id, vs, fin);
      }
    }
    BoundedLabels(vs, self.id, fin);
    FullSet(fin, Topology(vs).nodes);
  }

  lemma NearestIsNew(g: Graph, l: Labels, fin: set<nat>, next: nat)
    requires l.dist.Keys == g.nodes && Nearest(g, l, fin, next)
    ensures next !in fin
  {
  }

  lemma BoundedLabels(vs: seq<Router?>, src: nat, fin: set<nat>)
    requires Visited(Topology(vs), src, LabelsOf(vs), fin)
    ensures forall i :: 0 <= i < |vs| && vs[i] != null ==> vs[i].distance <= INFINITY
    ensures fin <= Nodes(vs, |vs|) == Topology(vs).nodes
  {
    assert forall i: nat :: i < |vs| && vs[i] != null ==>
        i in Nodes(vs, |vs|) && vs[i].distance == LabelsOf(vs).dist[i];
  }

  /** On final labels every vertex but the source has a predecessor in the array, one hop nearer. */
  lemma PredecessorStep(vs: seq<Router?>, src: nat, w: Router)
    requires Network(vs) && PredecessorsKnown(vs) && w in vs && w.id != src
    requires Labelled(Topology(vs), src, LabelsOf(vs).dist, LabelsOf(vs).pred)
    ensures var l := LabelsOf(vs);
            && w.predecessor != null && w.predecessor in vs
            && w.id in l.dist && w.predecessor.id in l.dist && w.id in l.pred && l.pred[w.id] == w.predecessor.id
            && (w.predecessor.id, w.id) in Topology(vs).edges
            && l.dist[w.id] == l.dist[w.predecessor.id] + 1
  {
    PlaceInArray(vs, w);
    assert w.id in Nodes(vs, |vs|);
  }

  /** start lies on the predecessor chain of v, and p is the walk from it to v. */
  ghost predicate Tracing(vs: seq<Router?>, src: nat, v: nat, start: Router, p: seq<nat>)
    reads All(vs)`routes, All(vs)`distance, All(vs)`predecessor
  {
    var g, l := Topology(vs), LabelsOf(vs);
    && Network(vs) && PredecessorsKnown(vs) && Labelled(g, src, l.dist, l.pred)
    && v in g.nodes && v != src && start in vs && start.id in g.nodes && start.id != src
    && Walks(g, start.id, v, p) && l.dist[start.id] <= l.dist[v] && |p| == l.dist[v] - l.dist[start.id] + 1
  }

  lemma TraceStarts(vs: seq<Router?>, src: nat, v: nat)
    requires Network(vs) && PredecessorsKnown(vs)
    requires Labelled(Topology(vs), src, LabelsOf(vs).dist, LabelsOf(vs).pred)
    requires v < |vs| && vs[v] != null && v != src
    ensures Tracing(vs, src, v, vs[v], [v])
  {
    PlaceInArray(vs, vs[v]);
    assert v in Topology(vs).nodes;
    assert Walks(Topology(vs), v, v, [v]);
  }

  lemma TraceContinues(vs: seq<Router?>, src: nat, v: nat, start: Router, p: seq<nat>)
    requires Tracing(vs, src, v, start, p)
    ensures start.predecessor != null && start.predecessor in vs
    ensures start.predecessor.id != src ==>
              && Tracing(vs, src, v, start.predecessor, [start.predecessor.id] + p)
              && start.predecessor.distance < start.distance
    ensures start.predecessor.id == src ==> IsFirstHop(Topology(vs), src, v, start.id)
  {
    var g, l := Topology(vs), LabelsOf(vs);
    PredecessorStep(vs, src, start);
    PlaceInArray(vs, start);
    PlaceInArray(vs, start.predecessor);
    hide Network, PredecessorsKnown, Labelled, Topology, Walks, WellFormed;
    LabelledFacts(g, src, l);
    if start.predecessor.id == src {
      ChainEndIsFirstHop(g, src, l, v, start.id, p);
    } else {
      StepThenWalk(g, start.predecessor.id, start.id, v, p);
    }
  }

  lemma LabelledFacts(g: Graph, src: nat, l: Labels)
    requires Labelled(g, src, l.dist, l.pred)
    ensures WellFormed(g) && l.dist.Keys == g.nodes
  {
  }

  /** The inner loop of the third part of createTable: back from v to the vertex next to the source. */
  method TraceBack(self: Router, vs: seq<Router?>, v: nat) returns (start: Router)
    requires Network(vs) && PredecessorsKnown(vs)
    requires Labelled(Topology(vs), self.id, LabelsOf(vs).dist, LabelsOf(vs).pred)
    requires v < |vs| && vs[v] != null && v != self.id
    ensures start in vs && IsFirstHop(Topology(vs), self.id, v, start.id)
    ensures Network(vs) && PredecessorsKnown(vs)
    ensures Topology(vs) == old(Topology(vs)) && LabelsOf(vs) == old(LabelsOf(vs))
  {
    hide Tracing, Topology, IsFirstHop, LabelsOf, Network, PredecessorsKnown, Labelled;
    ghost var p := [v];
    start := vs[v];
    TraceStarts(vs, self.id, v);
    TraceContinues(vs, self.id, v, start, p);
    while start.predecessor.id != self.id
      invariant Network(vs) && PredecessorsKnown(vs)
      invariant Topology(vs) == old(Topology(vs)) && LabelsOf(vs) == old(LabelsOf(vs))
      invariant start in vs && start.predecessor != null
      invariant Tracing(vs, self.id, v, start, p)
      decreases start.distance
    {
      TraceContinues(vs, self.id, v, start, p);
      start := start.predecessor;
      p := [start.id] + p;
      TraceContinues(vs, self.id, v, start, p);
    }
    TraceContinues(vs, self.id, v, start, p);
  }

  // ---------------------------------------------------------------- tables

  /** The queue for v in the table of router r is the one filed under a first hop towards v. */
  ghost predicate EntryRight(g: Graph, r: nat, routes: seq<NSQueue?>, table: map<nat, NSQueue>, v: nat) {
    && v in table
    && var f := table[v].dest.id;
       f < |routes| && routes[f] == table[v] && IsFirstHop(g, r, v, f)
  }

  /** The entries for routers numbered below n are right. */
  ghost predicate TableUpTo(g: Graph, r: nat, routes: seq<NSQueue?>, table: map<nat, NSQueue>, n: nat) {
    forall v: nat :: v < n && v in g.nodes && v != r ==> EntryRight(g, r, routes, table, v)
  }

  ghost predicate TableRight(g: Graph, r: nat, routes: seq<NSQueue?>, table: map<nat, NSQueue>) {
    forall v: nat :: v in g.nodes && v != r ==> EntryRight(g, r, routes, table, v)
  }

  lemma FirstHopHasQueue(vs: seq<Router?>, r: Router, v: nat, start: Router)
    requires Network(vs) && r in vs && start in vs && IsFirstHop(Topology(vs), r.id, v, start.id)
    ensures start.id < |r.routes| && r.routes[start.id] != null && r.routes[start.id].dest == start
  {
    PlaceInArray(vs, r);
    PlaceInArray(vs, start);
    TopologyIsWellFormed(vs);
    assert (r.id, start.id) in Topology(vs).edges;
  }

  /** createTable; neither of its two die calls is reached. */
  method CreateTable(self: Router, vs: seq<Router?>)
    requires Network(vs) && self in vs && PredecessorsKnown(vs)
    requires Connected(Topology(vs)) && |Nodes(vs, |vs|)| < INFINITY
    modifies All(vs)`distance, All(vs)`predecessor, All(vs)`done, self`routingTable
    ensures Network(vs) && PredecessorsKnown(vs) && Topology(vs) == old(Topology(vs))
    ensures TableRight(Topology(vs), self.id, self.routes, self.routingTable)
  {
    hide Visited, Labelled, IsFirstHop, Connected;
    Reset(self, vs);
    VisitAll(self, vs);
    AllVisitedIsLabelled(Topology(vs), self.id, LabelsOf(vs));
    FillTable(self, vs);
  }

  /** Writing one table entry touches neither the topology nor the labels. */
  method StoreEntry(self: Router, vs: seq<Router?>, v: nat, q: NSQueue)
    requires Network(vs) && PredecessorsKnown(vs)
    modifies self`routingTable
    ensures Network(vs) && PredecessorsKnown(vs)
    ensures Topology(vs) == old(Topology(vs)) && LabelsOf(vs) == old(LabelsOf(vs))
    ensures self.routingTable == old(self.routingTable)[v := q]
  {
    self.routingTable := self.routingTable[v := q];
  }

  lemma EntryStored(g: Graph, r: nat, routes: seq<NSQueue?>, table: map<nat, NSQueue>, v: nat, n: nat)
    requires n < |routes| && routes[n] != null && routes[n].dest.id == n && IsFirstHop(g, r, v, n)
    ensures EntryRight(g, r, routes, table[v := routes[n]], v)
    ensures forall u: nat :: u != v && EntryRight(g, r, routes, table, u) ==>
            EntryRight(g, r, routes, table[v := routes[n]], u)
  {
    hide IsFirstHop;
  }

  /** One turn of the third loop of createTable. */
  method MakeEntry(self: Router, vs: seq<Router?>, v: nat)
    requires Network(vs) && self in vs && PredecessorsKnown(vs)
    requires Labelled(Topology(vs), self.id, LabelsOf(vs).dist, LabelsOf(vs).pred)
    requires v < |vs| && vs[v] != null && v != self.id
    requires TableUpTo(Topology(vs), self.id, self.routes, self.routingTable, v)
    modifies self`routingTable
    ensures Network(vs) && PredecessorsKnown(vs)
    ensures Topology(vs) == old(Topology(vs)) && LabelsOf(vs) == old(LabelsOf(vs))
    ensures TableUpTo(Topology(vs), self.id, self.routes, self.routingTable, v + 1)
  {
    hide Network, Labelled, IsFirstHop, Topology, LabelsOf, PredecessorsKnown, EntryRight;
    var start := TraceBack(self, vs, v);
    FirstHopHasQueue(vs, self, v, start);
    EntryStored(Topology(vs), self.id, self.routes, self.routingTable, v, start.id);
    StoreEntry(self, vs, v, self.routes[start.id]);
  }

  /** The third part of createTable. */
  method FillTable(self: Router, vs: seq<Router?>)
    requires Network(vs) && self in vs && PredecessorsKnown(vs)
    requires Labelled(Topology(vs), self.id, LabelsOf(vs).dist, LabelsOf(vs).pred)
    modifies self`routingTable
    ensures Network(vs) && PredecessorsKnown(vs) && Topology(vs) == old(Topology(vs))
    ensures TableRight(Topology(vs), self.id, self.routes, self.routingTable)
  {
    ClearTable(self, vs);
    hide Labelled, IsFirstHop, LabelsOf, PredecessorsKnown, Network, EntryRight, TableUpTo, TableRight, Topology;
    TableBegins(vs, self);
    for v := 0 to |vs|
      invariant Network(vs) && PredecessorsKnown(vs)
      invariant Topology(vs) == old(Topology(vs)) && LabelsOf(vs) == old(LabelsOf(vs))
      invariant TableUpTo(Topology(vs), self.id, self.routes, self.routingTable, v)
    {
      if vs[v] == null || v == self.id {
        NoEntryNeeded(vs, self, v);
      } else {
        MakeEntry(self, vs, v);
      }
    }
    TableEnds(vs, self);
  }

  lemma TableBegins(vs: seq<Router?>, r: Router)
    ensures TableUpTo(Topology(vs), r.id, r.routes, r.routingTable, 0)
  {
  }

  lemma NoEntryNeeded(vs: seq<Router?>, r: Router, v: nat)
    requires TableUpTo(Topology(vs), r.id, r.routes, r.routingTable, v)
    requires v < |vs| && (vs[v] == null || v == r.id)
    ensures TableUpTo(Topology(vs), r.id, r.routes, r.routingTable, v + 1)
  {
  }

  lemma TableEnds(vs: seq<Router?>, r: Router)
    requires TableUpTo(Topology(vs), r.id, r.routes, r.routingTable, |vs|)
    ensures TableRight(Topology(vs), r.id, r.routes, r.routingTable)
  {
    hide EntryRight;
  }

  method ClearTable(self: Router, vs: seq<Router?>)
    requires Network(vs) && PredecessorsKnown(vs)
    modifies self`routingTable
    ensures Network(vs) && PredecessorsKnown(vs)
    ensures Topology(vs) == old(Topology(vs)) && LabelsOf(vs) == old(LabelsOf(vs))
    ensures self.routingTable == map[]
  {
    self.routingTable := map[];
  }

  /** Where router r sends what is meant for v, for all r and v. */
  ghost function NextHops(vs: seq<Router?>): Tables
    reads All(vs)`routingTable
  {
    map r: nat | r in Nodes(vs, |vs|) :: map v: nat | v in vs[r].routingTable :: vs[r].routingTable[v].dest.id
  }

  /**
    The loop of main: every router computes its own table in turn, over the records the
    others have just written.  All the tables come out right together.
   */
  method CreateTables(vs: seq<Router?>)
    requires Network(vs) && PredecessorsKnown(vs)
    requires Connected(Topology(vs)) && |Nodes(vs, |vs|)| < INFINITY
    modifies All(vs)`distance, All(vs)`predecessor, All(vs)`done, All(vs)`routingTable
    ensures Topology(vs) == old(Topology(vs)) && TablesRight(Topology(vs), NextHops(vs))
    ensures forall i :: 0 <= i < |vs| && vs[i] != null ==>
              TableRight(Topology(vs), vs[i].id, vs[i].routes, vs[i].routingTable)
  {
    hide IsFirstHop, Connected, Topology, Network, PredecessorsKnown, TableRight;
    for k := 0 to |vs|
      invariant Network(vs) && PredecessorsKnown(vs) && Topology(vs) == old(Topology(vs))
      invariant forall i :: 0 <= i < k && vs[i] != null ==>
                  TableRight(Topology(vs), vs[i].id, vs[i].routes, vs[i].routingTable)
    {
      if vs[k] != null {
        forall i | 0 <= i < k && vs[i] != null
          ensures vs[i] != vs[k]
        {
          PlaceInArray(vs, vs[i]);
          PlaceInArray(vs, vs[k]);
        }
        CreateTable(vs[k], vs);
      }
    }
    AllTables(vs);
  }

  lemma AllTables(vs: seq<Router?>)
    requires Network(vs)
    requires forall i :: 0 <= i < |vs| && vs[i] != null ==>
               TableRight(Topology(vs), vs[i].id, vs[i].routes, vs[i].routingTable)
    ensures TablesRight(Topology(vs), NextHops(vs))
  {
    hide IsFirstHop;
    var g := Topology(vs);
    forall r: nat, v: nat | r in g.nodes && v in g.nodes && r != v
      ensures r in NextHops(vs) && v in NextHops(vs)[r] && IsFirstHop(g, r, v, NextHops(vs)[r][v])
    {
      assert EntryRight(g, r, vs[r].routes, vs[r].routingTable, v);
    }
  }
}
