/**
  The second half of main in hupsim.pl: packets move through the queues of the routers as
  module Forwarding describes.
 */
module Simulator {
  import opened Common
  import opened Paths
  import opened Routers
  import opened MapFile
  import opened Timing
  import Dijkstra
  import F = Forwarding

  // ---------------------------------------------------------------- the running network

  /** All tables are right, every node has its router, and queues are told apart and can transmit. */
  ghost predicate Ready(vs: seq<Router?>, nodes: map<(nat, nat), nat>)
    reads All(vs)`routes, All(vs)`routingTable
  {
    && Network(vs) && Separate(vs) && Connected(Topology(vs)) && nodes.Values <= Topology(vs).nodes
    && (forall i :: 0 <= i < |vs| && vs[i] != null ==>
          vs[i].nodes == nodes && TableRight(Topology(vs), vs[i].id, vs[i].routes, vs[i].routingTable))
    && forall i: nat, j: nat :: Edge(vs, i, j) ==> vs[i].routes[j].rate > 0
  }

  ghost function LimitsOf(vs: seq<Router?>): (m: F.Limits)
    requires Network(vs)
    reads All(vs)`routes
    ensures m.Keys == Topology(vs).edges
  {
    TopologyIsWellFormed(vs);
    map e | e in Topology(vs).edges :: vs[e.0].routes[e.1].max
  }

  lemma ReadyIsRouted(vs: seq<Router?>, nodes: map<(nat, nat), nat>)
    requires Ready(vs, nodes)
    ensures F.Routed(Topology(vs), NextHops(vs), LimitsOf(vs))
  {
    AllTables(vs);
    TopologyIsWellFormed(vs);
    hide Connected, TablesRight, TableRight, WellFormed, NextHops;
  }

  function Packets(queue: seq<Entry>): (r: seq<Packet>)
    ensures |r| == |queue|
  {
    seq(|queue|, i requires 0 <= i < |queue| => queue[i].pkt)
  }

  /** What waits at router i for router j. */
  ghost function PacketsAt(vs: seq<Router?>, i: nat, j: nat): seq<Packet>
    requires Edge(vs, i, j)
    reads All(vs)`routes, vs[i].routes[j]
  {
    Packets(vs[i].routes[j].queue)
  }

  /** The queues hold q, and are the ends of these links. */
  ghost predicate Holds(vs: seq<Router?>, links: Links, q: Contents)
    reads All(vs)`routes, Queues(vs)
  {
    && (forall i: nat, j: nat :: (i, j) in q <==> Edge(vs, i, j))
    && (forall i: nat, j: nat :: (i, j) in links <==> Edge(vs, i, j))
    && forall i: nat, j: nat :: Edge(vs, i, j) ==>
         && vs[i].routes[j] in Queues(vs)
         && q[(i, j)] == vs[i].routes[j].queue && links[(i, j)] == LinkOf(vs[i].routes[j])
  }

  ghost predicate AllValid(vs: seq<Router?>)
    reads All(vs)`routes, Queues(vs)
  {
    forall i: nat, j: nat :: Edge(vs, i, j) ==> vs[i].routes[j] in Queues(vs) && vs[i].routes[j].Valid()
  }

  lemma OneQueueOneEdge(vs: seq<Router?>, i: nat, j: nat, k: nat, l: nat)
    requires Network(vs) && Separate(vs) && Edge(vs, i, j) && Edge(vs, k, l) && vs[i].routes[j] == vs[k].routes[l]
    ensures i == k && j == l
  {
    assert vs[i].routes[j].dest == vs[j] && vs[k].routes[l].dest == vs[l];
  }

  lemma OtherQueues(vs: seq<Router?>, i: nat, j: nat)
    requires Network(vs) && Separate(vs) && Edge(vs, i, j)
    ensures forall k: nat, l: nat :: Edge(vs, k, l) && !(k == i && l == j) ==> vs[k].routes[l] != vs[i].routes[j]
  {
    forall k: nat, l: nat | Edge(vs, k, l) && vs[k].routes[l] == vs[i].routes[j]
      ensures k == i && l == j
    {
      OneQueueOneEdge(vs, k, l, i, j);
    }
  }

  /** The head of the queue from router i to router j leaves it. */
  method Pull(vs: seq<Router?>, i: nat, j: nat) returns (e: Entry)
    requires Network(vs) && Separate(vs) && AllValid(vs) && Edge(vs, i, j) && vs[i].routes[j].queue != []
    modifies vs[i].routes[j]
    ensures AllValid(vs) && [e] + vs[i].routes[j].queue == old(vs[i].routes[j].queue)
    ensures forall k: nat, l: nat :: Edge(vs, k, l) && !(k == i && l == j) ==>
            vs[k].routes[l].queue == old(vs[k].routes[l].queue)
  {
    OtherQueues(vs, i, j);
    hide Network, Separate, Edge;
    e := vs[i].routes[j].Shift();
  }

  /** That takes one entry from what the queues hold. */
  method PullHeld(vs: seq<Router?>, i: nat, j: nat, ghost links: Links, ghost q: Contents) returns (e: Entry)
    requires Network(vs) && Separate(vs) && AllValid(vs) && Edge(vs, i, j) && vs[i].routes[j].queue != []
    requires Holds(vs, links, q)
    modifies vs[i].routes[j]
    ensures AllValid(vs) && [e] + vs[i].routes[j].queue == old(vs[i].routes[j].queue)
    ensures forall k: nat, l: nat :: Edge(vs, k, l) && !(k == i && l == j) ==>
            vs[k].routes[l].queue == old(vs[k].routes[l].queue)
    ensures Holds(vs, links, q[(i, j) := q[(i, j)][1..]])
  {
    hide Network, Separate, NSQueue.Valid;
    e := Pull(vs, i, j);
    assert ([e] + vs[i].routes[j].queue)[1..] == vs[i].routes[j].queue;
  }

  /** Where router x sends what is meant for v. */
  lemma HopOf(vs: seq<Router?>, nodes: map<(nat, nat), nat>, x: Router, v: nat)
    requires Ready(vs, nodes) && AllValid(vs) && x in vs && v in Topology(vs).nodes && v != x.id
    ensures v in x.routingTable && x.id < |vs| && vs[x.id] == x
    ensures var f := x.routingTable[v].dest.id;
            && Edge(vs, x.id, f) && vs[x.id].routes[f] == x.routingTable[v] && x.routingTable[v].Usable()
                && x.routingTable[v] in Queues(vs)
            && x.id in NextHops(vs) && v in NextHops(vs)[x.id] && NextHops(vs)[x.id][v] == f
  {
    PlaceInArray(vs, x);
    assert EntryRight(Topology(vs), x.id, x.routes, x.routingTable, v);
    hide Connected, IsFirstHop, Topology, Separate;
    var f := x.routingTable[v].dest.id;
    assert Edge(vs, x.id, f);
    assert vs[x.id].routes[f].Valid() && vs[x.id].routes[f].rate > 0;
  }

  lemma QueueForIs(x: Router, p: Packet)
    ensures var d := Destination(x.nodes, p);
            x.QueueFor(p) ==
            if d.Some? && d.value != x.id && d.value in x.routingTable then {x.routingTable[d.value]} else {}
  {
  }

  /** Router x receives a packet for itself. */
  method Deliver(x: Router, p: Packet, vtime: real) returns (outcome: Outcome)
    requires Destination(x.nodes, p) == Some(x.id)
    modifies x`sent, x`bytesSent
    ensures outcome == Delivered && x.sent == old(x.sent) + [p]
  {
    assert x.QueueFor(p) == {};
    outcome := x.Recv(p, vtime);
  }

  /** That leaves all queues alone. */
  method DeliverOnly(vs: seq<Router?>, x: Router, p: Packet, vtime: real, ghost links: Links, ghost q: Contents)
    returns (outcome: Outcome)
    requires AllValid(vs) && Holds(vs, links, q) && Destination(x.nodes, p) == Some(x.id)
    modifies x`sent, x`bytesSent
    ensures outcome == Delivered && x.sent == old(x.sent) + [p] && AllValid(vs) && Holds(vs, links, q)
    ensures forall k: nat, l: nat :: Edge(vs, k, l) ==> PacketsAt(vs, k, l) == old(PacketsAt(vs, k, l))
  {
    hide Packets, Destination;
    outcome := Deliver(x, p, vtime);
  }

  lemma JoinedPackets(queue: seq<Entry>, max: nat, latency: real, rate: nat, p: Packet, vtime: real)
    ensures Packets(Joined(queue, max, latency, rate, p, vtime)) ==
            if |queue| >= max then Packets(queue) else Packets(queue) + [p]
  {
  }

  /** Router x receives a packet that goes into queue q. */
  method Enqueue(x: Router, p: Packet, vtime: real, ghost q: NSQueue) returns (outcome: Outcome)
    requires x.QueueFor(p) == {q} && q.Usable()
    modifies x`sent, x`bytesSent, q
    ensures outcome == Enqueued && x.sent == old(x.sent) && q.Valid()
    ensures Packets(q.queue) == if |old(q.queue)| >= q.max then Packets(old(q.queue)) else Packets(old(q.queue)) + [p]
    ensures q.queue == Joined(old(q.queue), q.max, q.latency, q.rate, p, vtime)
  {
    QueueForIs(x, p);
    JoinedPackets(q.queue, q.max, q.latency, q.rate, p, vtime);
    assert q in x.QueueFor(p);
    hide Joined, Packets, TotalLength, Destination;
    outcome := x.Recv(p, vtime);
  }

  /** Router x receives a packet for another router, which its table sends to router f. */
  method ForwardHeld(vs: seq<Router?>, x: Router, p: Packet, vtime: real, ghost f: nat, ghost links: Links,
                     ghost q: Contents) returns (outcome: Outcome)
    requires Network(vs) && Separate(vs) && AllValid(vs) && Edge(vs, x.id, f) && vs[x.id] == x
    requires x.QueueFor(p) == {x.routes[f]} && x.routes[f].Usable() && Holds(vs, links, q)
    modifies x`sent, x`bytesSent, x.routes[f]
    ensures outcome == Enqueued && x.sent == old(x.sent) && AllValid(vs)
    ensures var was := old(PacketsAt(vs, x.id, f));
            PacketsAt(vs, x.id, f) == if |was| >= x.routes[f].max then was else was + [p]
    ensures Holds(vs, links, q[(x.id, f) := After(q[(x.id, f)], links[(x.id, f)], p, vtime)])
  {
    hide Network, Separate, Packets, NSQueue.Valid, NSQueue.Usable, Router.QueueFor, Joined;
    OtherQueues(vs, x.id, f);
    outcome := Enqueue(x, p, vtime, x.routes[f]);
  }

  /** The packets in the other queues are what they were. */
  method Forward(vs: seq<Router?>, x: Router, p: Packet, vtime: real, ghost f: nat, ghost links: Links,
                 ghost q: Contents) returns (outcome: Outcome)
    requires Network(vs) && Separate(vs) && AllValid(vs) && Edge(vs, x.id, f) && vs[x.id] == x
    requires x.QueueFor(p) == {x.routes[f]} && x.routes[f].Usable() && Holds(vs, links, q)
    modifies x`sent, x`bytesSent, x.routes[f]
    ensures outcome == Enqueued && x.sent == old(x.sent) && AllValid(vs)
    ensures var was := old(PacketsAt(vs, x.id, f));
            PacketsAt(vs, x.id, f) == if |was| >= x.routes[f].max then was else was + [p]
    ensures forall k: nat, l: nat :: Edge(vs, k, l) && !(k == x.id && l == f) ==>
            PacketsAt(vs, k, l) == old(PacketsAt(vs, k, l))
    ensures Holds(vs, links, q[(x.id, f) := After(q[(x.id, f)], links[(x.id, f)], p, vtime)])
  {
    hide Network, Separate, Packets, AllValid, NSQueue.Usable, Router.QueueFor, After, Edge;
    HeldAt(vs, links, q, x.id, f);
    outcome := ForwardHeld(vs, x, p, vtime, f, links, q);
  }

  // ---------------------------------------------------------------- refinement of module Forwarding

  function PacketsOf(trips: seq<F.Trip>): (r: seq<Packet>)
    ensures |r| == |trips|
  {
    seq(|trips|, i requires 0 <= i < |trips| => trips[i].packet)
  }

  /** The queues hold what n has waiting, and the sockets have sent what n has delivered. */
  ghost predicate Shows(vs: seq<Router?>, n: F.Net)
    reads All(vs)`routes, All(vs)`sent, Queues(vs)
  {
    && (forall k: nat, l: nat :: Edge(vs, k, l) ==>
          vs[k].routes[l] in Queues(vs) && PacketsAt(vs, k, l) == PacketsOf(F.Queue(n.waiting, k, l)))
    && forall i: nat :: i < |vs| && vs[i] != null ==> vs[i].sent == F.DeliveredBy(n.delivered, i)
  }

  /** The header of every waiting packet names the router it is on its way to. */
  ghost predicate Addressed(nodes: map<(nat, nat), nat>, n: F.Net) {
    forall i :: 0 <= i < |n.waiting| ==> Destination(nodes, n.waiting[i].trip.packet) == Some(n.waiting[i].trip.dest)
  }

  lemma DeliveryShown(vs: seq<Router?>, n: F.Net, t: F.Trip)
    requires forall k: nat, l: nat :: Edge(vs, k, l) ==>
               vs[k].routes[l] in Queues(vs) && PacketsAt(vs, k, l) == PacketsOf(F.Queue(n.waiting, k, l))
    requires forall i: nat :: i < |vs| && vs[i] != null ==>
               vs[i].sent == F.DeliveredBy(n.delivered, i) + if i == t.dest then [t.packet] else []
    ensures Shows(vs, n.(delivered := n.delivered + [t]))
  {
    forall i: nat | i < |vs| && vs[i] != null
      ensures vs[i].sent == F.DeliveredBy(n.delivered + [t], i)
    {
      F.DeliveredByAppend(n.delivered, t, i);
    }
  }

  lemma OnePacketMore(trips: seq<F.Trip>, t: F.Trip)
    ensures PacketsOf(trips + []) == PacketsOf(trips)
    ensures PacketsOf(trips + [t]) == PacketsOf(trips) + [t.packet]
  {
    assert trips + [] == trips;
  }

  lemma ForwardingShown(vs: seq<Router?>, n: F.Net, x: nat, f: nat, t: F.Trip, max: nat)
    requires Edge(vs, x, f)
    requires forall k: nat, l: nat :: Edge(vs, k, l) ==> vs[k].routes[l] in Queues(vs)
    requires forall k: nat, l: nat :: Edge(vs, k, l) && !(k == x && l == f) ==>
               PacketsAt(vs, k, l) == PacketsOf(F.Queue(n.waiting, k, l))
    requires PacketsAt(vs, x, f) ==
             PacketsOf(F.Queue(n.waiting, x, f)) + if |F.Queue(n.waiting, x, f)| >= max then [] else [t.packet]
    requires forall i: nat :: i < |vs| && vs[i] != null ==> vs[i].sent == F.DeliveredBy(n.delivered, i)
    ensures Shows(vs, if |F.Queue(n.waiting, x, f)| >= max then n.(dropped := n.dropped + [t])
                      else n.(waiting := n.waiting + [F.Waiting(x, f, t)]))
  {
    hide F.Queue, Edge, F.DeliveredBy, PacketsAt, Queues, PacketsOf;
    if |F.Queue(n.waiting, x, f)| < max {
      forall k: nat, l: nat | Edge(vs, k, l)
        ensures PacketsAt(vs, k, l) == PacketsOf(F.Queue(n.waiting + [F.Waiting(x, f, t)], k, l))
      {
        F.QueueOfAppend(n.waiting, F.Waiting(x, f, t), k, l);
        OnePacketMore(F.Queue(n.waiting, k, l), t);
      }
    }
  }

  method AcceptHere(vs: seq<Router?>, x: Router, p: Packet, vtime: real, ghost links: Links, ghost q: Contents,
                    ghost n: F.Net, ghost t: F.Trip) returns (outcome: Outcome)
    requires Network(vs) && AllValid(vs) && x in vs && Shows(vs, n) && Holds(vs, links, q)
    requires t.packet == p && Destination(x.nodes, p) == Some(x.id) == Some(t.dest)
    modifies x`sent, x`bytesSent
    ensures AllValid(vs) && Shows(vs, n.(delivered := n.delivered + [t])) && outcome == Delivered
    ensures Holds(vs, links, q)
  {
    PlaceInArray(vs, x);
    hide Edge, F.Queue, Network, F.DeliveredBy, Holds;
    outcome := DeliverOnly(vs, x, p, vtime, links, q);
    DeliveryShown(vs, n, t);
  }

  method AcceptElsewhere(vs: seq<Router?>, x: Router, p: Packet, vtime: real, ghost f: nat, ghost links: Links,
                         ghost q: Contents, ghost n: F.Net, ghost t: F.Trip) returns (outcome: Outcome)
    requires Holds(vs, links, q)
    requires Network(vs) && Separate(vs) && AllValid(vs) && Edge(vs, x.id, f) && vs[x.id] == x && Shows(vs, n)
    requires t.packet == p && Destination(x.nodes, p) == Some(t.dest) && t.dest != x.id
    requires t.dest in x.routingTable && x.routingTable[t.dest] == x.routes[f] && x.routes[f].Usable()
    modifies x`sent, x`bytesSent, x.routes[f]
    ensures AllValid(vs) && outcome == Enqueued
    ensures Shows(vs, if |F.Queue(n.waiting, x.id, f)| >= x.routes[f].max then n.(dropped := n.dropped + [t])
                      else n.(waiting := n.waiting + [F.Waiting(x.id, f, t)]))
    ensures Holds(vs, links, q[(x.id, f) := After(q[(x.id, f)], links[(x.id, f)], p, vtime)])
  {
    QueueForIs(x, p);
    hide F.Queue, Network, Separate, AllValid, F.DeliveredBy, Destination, Router.QueueFor, PacketsOf, Packets,
        NSQueue.Usable, After;
    outcome := Forward(vs, x, p, vtime, f, links, q);
    ForwardingShown(vs, n, x.id, f, t, x.routes[f].max);
  }

  /** Where module Forwarding puts a packet that arrives at router x. */
  lemma ArriveIs(vs: seq<Router?>, n: F.Net, x: Router, t: F.Trip)
    requires Network(vs)
    requires t.dest != x.id ==>
               && x.id in NextHops(vs) && t.dest in NextHops(vs)[x.id]
               && Edge(vs, x.id, NextHops(vs)[x.id][t.dest]) && vs[x.id] == x
    ensures F.Arrive(n, NextHops(vs), LimitsOf(vs), x.id, t) ==
            if t.dest == x.id then n.(delivered := n.delivered + [t])
            else
              var f := NextHops(vs)[x.id][t.dest];
              if |F.Queue(n.waiting, x.id, f)| >= x.routes[f].max then n.(dropped := n.dropped + [t])
              else n.(waiting := n.waiting + [F.Waiting(x.id, f, t)])
  {
    if t.dest != x.id {
      LimitAt(vs, x.id, NextHops(vs)[x.id][t.dest]);
    }
    hide NextHops, LimitsOf, F.Queue, Network;
  }

  /** What recv of router x needs to know when packet p on trip t arrives. */
  lemma Arrival(vs: seq<Router?>, nodes: map<(nat, nat), nat>, x: Router, p: Packet, n: F.Net, t: F.Trip)
    requires Ready(vs, nodes) && AllValid(vs) && x in vs
    requires t.packet == p && t.dest in Topology(vs).nodes && Destination(nodes, p) == Some(t.dest)
    ensures Network(vs) && Separate(vs) && x.nodes == nodes && x.id < |vs| && vs[x.id] == x
    ensures t.dest == x.id ==>
              && x.QueueFor(p) == {}
              && F.Arrive(n, NextHops(vs), LimitsOf(vs), x.id, t) == n.(delivered := n.delivered + [t])
    ensures t.dest != x.id ==>
              && t.dest in x.routingTable && x.QueueFor(p) == {x.routingTable[t.dest]}
              && var f := x.routingTable[t.dest].dest.id;
                 && x.id in NextHops(vs) && t.dest in NextHops(vs)[x.id] && NextHops(vs)[x.id][t.dest] == f
                 && Edge(vs, x.id, f) && x.routingTable[t.dest] == x.routes[f] && x.routes[f].Usable()
                     && x.routes[f] in Queues(vs)
                 && F.Arrive(n, NextHops(vs), LimitsOf(vs), x.id, t) ==
                    if |F.Queue(n.waiting, x.id, f)| >= x.routes[f].max then n.(dropped := n.dropped + [t])
                    else n.(waiting := n.waiting + [F.Waiting(x.id, f, t)])
  {
    hide *;
    ReadyFacts(vs, nodes, x);
    if t.dest != x.id {
      HopOf(vs, nodes, x, t.dest);
    }
    QueueForIs(x, p);
    ArriveIs(vs, n, x, t);
  }

  lemma ReadyFacts(vs: seq<Router?>, nodes: map<(nat, nat), nat>, x: Router)
    requires Ready(vs, nodes) && x in vs
    ensures Network(vs) && Separate(vs) && x.nodes == nodes && x.id < |vs| && vs[x.id] == x
  {
    PlaceInArray(vs, x);
  }

  /** What Timing says of a packet that arrives at router x. */
  lemma ArrivedIs(vs: seq<Router?>, links: Links, q: Contents, next: Tables, x: nat, t: F.Trip, vtime: real)
    requires Holds(vs, links, q)
    requires t.dest != x ==> x in next && t.dest in next[x] && Edge(vs, x, next[x][t.dest])
    ensures Arrived(q, links, next, x, t, vtime) ==
            if t.dest == x then q
            else
              var f := next[x][t.dest];
              q[(x, f) := After(q[(x, f)], links[(x, f)], t.packet, vtime)]
  {
    hide Joined;
  }

  /** recv of router x, for a packet on trip t: what Forwarding.Arrive and Timing.Arrived say. */
  method Accept(vs: seq<Router?>, nodes: map<(nat, nat), nat>, x: Router, p: Packet, vtime: real, ghost next: Tables,
                ghost max: F.Limits, ghost links: Links, ghost q: Contents, ghost n: F.Net, ghost t: F.Trip)
    returns (outcome: Outcome)
    requires Holds(vs, links, q)
    requires Ready(vs, nodes) && AllValid(vs) && x in vs && Shows(vs, n) && next == NextHops(vs) && max == LimitsOf(vs)
    requires t.packet == p && t.dest in Topology(vs).nodes && Destination(nodes, p) == Some(t.dest)
    modifies x`sent, x`bytesSent, Queues(vs)
    ensures AllValid(vs) && Shows(vs, F.Arrive(n, next, max, x.id, t))
    ensures outcome == if t.dest == x.id then Delivered else Enqueued
    ensures Holds(vs, links, Arrived(q, links, next, x.id, t, vtime))
  {
    hide *;
    Arrival(vs, nodes, x, p, n, t);
    ArrivedIs(vs, links, q, next, x.id, t, vtime);
    if Destination(x.nodes, p) == Some(x.id) {
      outcome := AcceptHere(vs, x, p, vtime, links, q, n, t);
    } else {
      outcome := AcceptElsewhere(vs, x, p, vtime, x.routingTable[t.dest].dest.id, links, q, n, t);
    }
  }

  lemma LimitAt(vs: seq<Router?>, i: nat, j: nat)
    requires Network(vs) && Edge(vs, i, j)
    ensures (i, j) in LimitsOf(vs) && LimitsOf(vs)[(i, j)] == vs[i].routes[j].max
  {
    TopologyIsWellFormed(vs);
  }

  /** The objects are those of a network whose tables are right, and n is what they show. */
  ghost predicate Simulates(vs: seq<Router?>, nodes: map<(nat, nat), nat>, next: Tables, max: F.Limits, n: F.Net)
    reads All(vs)`routes, All(vs)`routingTable, All(vs)`sent, Queues(vs)
  {
    && Ready(vs, nodes) && next == NextHops(vs) && max == LimitsOf(vs)
    && AllValid(vs) && Shows(vs, n) && Addressed(nodes, n) && F.Good(Topology(vs), next, n)
  }

  lemma RemovalShown(vs: seq<Router?>, n: F.Net, k: nat, p: Packet)
    requires F.IsHead(n.waiting, k) && Edge(vs, n.waiting[k].at, n.waiting[k].to)
    requires forall i: nat, j: nat :: Edge(vs, i, j) ==> vs[i].routes[j] in Queues(vs)
    requires var i, j := n.waiting[k].at, n.waiting[k].to;
             && [p] + PacketsAt(vs, i, j) == PacketsOf(F.Queue(n.waiting, i, j))
             && forall x: nat, f: nat :: Edge(vs, x, f) && !(x == i && f == j) ==>
                  PacketsAt(vs, x, f) == PacketsOf(F.Queue(n.waiting, x, f))
    requires forall i: nat :: i < |vs| && vs[i] != null ==> vs[i].sent == F.DeliveredBy(n.delivered, i)
    ensures p == n.waiting[k].trip.packet && Shows(vs, n.(waiting := F.Without(n.waiting, k)))
  {
    var i, j, rest := n.waiting[k].at, n.waiting[k].to, F.Without(n.waiting, k);
    F.QueueOfWithout(n.waiting, k, i, j);
    hide F.Queue, Edge, F.DeliveredBy, PacketsAt, Queues, PacketsOf, F.IsHead, F.Without;
    FirstPacket(n.waiting[k].trip, F.Queue(rest, i, j));
    forall x: nat, f: nat | Edge(vs, x, f)
      ensures PacketsAt(vs, x, f) == PacketsOf(F.Queue(rest, x, f))
    {
      F.QueueOfWithout(n.waiting, k, x, f);
      assert [] + F.Queue(rest, x, f) == F.Queue(rest, x, f);
    }
  }

  lemma FirstPacket(t: F.Trip, trips: seq<F.Trip>)
    ensures PacketsOf([t] + trips) == [t.packet] + PacketsOf(trips)
    ensures forall p: Packet, ps: seq<Packet> :: [p] + ps == [t.packet] + PacketsOf(trips) ==>
            p == t.packet && ps == PacketsOf(trips)
  {
    forall p: Packet, ps: seq<Packet> | [p] + ps == [t.packet] + PacketsOf(trips)
      ensures p == t.packet && ps == PacketsOf(trips)
    {
      assert ([p] + ps)[0] == p && ([p] + ps)[1..] == ps;
      assert ([t.packet] + PacketsOf(trips))[1..] == PacketsOf(trips);
    }
  }

  lemma ArriveKeepsAddresses(nodes: map<(nat, nat), nat>, n: F.Net, next: Tables, max: F.Limits, x: nat, t: F.Trip)
    requires Addressed(nodes, n) && Destination(nodes, t.packet) == Some(t.dest)
    ensures Addressed(nodes, F.Arrive(n, next, max, x, t))
  {
    hide F.Queue, Destination;
  }

  /** What is known before the head of queue (i, j) moves on. */
  lemma BeforeRelease(vs: seq<Router?>, nodes: map<(nat, nat), nat>, i: nat, j: nat, next: Tables, max: F.Limits,
                      n: F.Net)
    returns (k: nat)
    requires Simulates(vs, nodes, next, max, n) && Edge(vs, i, j) && vs[i].routes[j].queue != []
    ensures F.IsHead(n.waiting, k) && n.waiting[k].at == i && n.waiting[k].to == j && i != j
    ensures j < |vs| && vs[j] != null && vs[i].routes[j].dest == vs[j] && vs[j].id == j && vs[j] in vs
    ensures F.Good(Topology(vs), next, F.Apply(n, next, max, F.Release(k)))
    ensures n.waiting[k].trip.dest in Topology(vs).nodes
    ensures Destination(nodes, n.waiting[k].trip.packet) == Some(n.waiting[k].trip.dest)
    ensures Addressed(nodes, n.(waiting := F.Without(n.waiting, k)))
            && Addressed(nodes, F.Apply(n, next, max, F.Release(k)))
  {
    hide *;
    SimulatesFacts(vs, nodes, next, max, n, i, j);
    k := HeadShown(vs, n, i, j);
    LeadsTo(vs, i, j);
    RoutedNow(vs, nodes, next, max, n);
    TripShown(vs, nodes, next, max, n, k);
    ReleaseIs(n, next, max, k);
    var w := n.waiting[k];
    F.WaitsForAnother(Topology(vs), next, max, n, k);
    HeadEnabled(Topology(vs), n, k);
    F.StepKeeps(Topology(vs), next, max, n, F.Release(k));
    WithoutIsAddressed(nodes, n, k);
    ArriveKeepsAddresses(nodes, n.(waiting := F.Without(n.waiting, k)), next, max, w.to, F.Moved(w));
  }

  lemma HeadShown(vs: seq<Router?>, n: F.Net, i: nat, j: nat) returns (k: nat)
    requires Shows(vs, n) && Edge(vs, i, j) && vs[i].routes[j].queue != []
    ensures k < |n.waiting| && F.IsHead(n.waiting, k) && n.waiting[k].at == i && n.waiting[k].to == j
  {
    assert PacketsAt(vs, i, j) == PacketsOf(F.Queue(n.waiting, i, j));
    hide F.Queue, Edge;
    k := F.HeadOf(n.waiting, i, j);
  }

  lemma HeadEnabled(g: Graph, n: F.Net, k: nat)
    requires F.IsHead(n.waiting, k)
    ensures F.Enabled(g, n, F.Release(k))
  {
  }

  lemma LeadsTo(vs: seq<Router?>, i: nat, j: nat)
    requires Network(vs) && Edge(vs, i, j)
    ensures j < |vs| && vs[j] != null && vs[i].routes[j].dest == vs[j] && vs[j].id == j && vs[j] in vs
    ensures i < |vs| && vs[i] != null && j < |vs[i].routes| && vs[i].routes[j] != null
  {
  }

  lemma TripShown(vs: seq<Router?>, nodes: map<(nat, nat), nat>, next: Tables, max: F.Limits, n: F.Net, k: nat)
    requires Simulates(vs, nodes, next, max, n) && k < |n.waiting|
    ensures F.Good(Topology(vs), next, n) && Addressed(nodes, n) && n.waiting[k].trip.dest in Topology(vs).nodes
    ensures Destination(nodes, n.waiting[k].trip.packet) == Some(n.waiting[k].trip.dest)
  {
    hide Ready, AllValid, Shows, F.Travels, Topology, Destination;
    assert F.WellPlaced(Topology(vs), next, n.waiting[k]);
    F.TravelsInside(Topology(vs), n.waiting[k].trip, n.waiting[k].at);
  }

  lemma WithoutIsAddressed(nodes: map<(nat, nat), nat>, n: F.Net, k: nat)
    requires Addressed(nodes, n) && k < |n.waiting|
    ensures Addressed(nodes, n.(waiting := F.Without(n.waiting, k)))
  {
    hide Destination;
  }

  lemma SimulatesFacts(vs: seq<Router?>, nodes: map<(nat, nat), nat>, next: Tables, max: F.Limits, n: F.Net, i: nat,
                       j: nat)
    requires Simulates(vs, nodes, next, max, n) && Edge(vs, i, j)
    ensures Network(vs) && Separate(vs) && Ready(vs, nodes) && AllValid(vs) && Shows(vs, n)
    ensures next == NextHops(vs) && max == LimitsOf(vs) && vs[i].routes[j] in Queues(vs)
  {
  }

  lemma OneEntryLess(e: Entry, rest: seq<Entry>)
    ensures Packets([e] + rest) == [e.pkt] + Packets(rest) && ([e] + rest)[1..] == rest
  {
  }

  /** The head of the queue (i, j) leaves it. */
  method PullShown(vs: seq<Router?>, i: nat, j: nat, ghost links: Links, ghost q: Contents, ghost n: F.Net,
                   ghost k: nat) returns (e: Entry)
    requires Holds(vs, links, q)
    requires Network(vs) && Separate(vs) && AllValid(vs) && Shows(vs, n) && Edge(vs, i, j)
            && vs[i].routes[j].queue != []
    requires F.IsHead(n.waiting, k) && n.waiting[k].at == i && n.waiting[k].to == j
    modifies vs[i].routes[j]
    ensures AllValid(vs) && Shows(vs, n.(waiting := F.Without(n.waiting, k))) && e.pkt == n.waiting[k].trip.packet
    ensures Holds(vs, links, q[(i, j) := q[(i, j)][1..]])
  {
    hide Network, Separate, F.Queue, F.IsHead, PacketsOf, F.DeliveredBy, F.Without, Packets, Holds, AllValid;
    e := PullHeld(vs, i, j, links, q);
    OneEntryLess(e, vs[i].routes[j].queue);
    RemovalShown(vs, n, k, e.pkt);
  }

  /**
    One turn of the inner loop of run: the head of a queue, which is due by the reading now,
    moves on to the next router at the later reading vtime.
   */
  method Release(vs: seq<Router?>, nodes: map<(nat, nat), nat>, i: nat, j: nat, ghost now: real, vtime: real,
                 ghost next: Tables, ghost max: F.Limits, ghost links: Links, ghost q: Contents, ghost n: F.Net)
    returns (outcome: Outcome, ghost k: nat)
    requires Simulates(vs, nodes, next, max, n) && Holds(vs, links, q)
    requires Edge(vs, i, j) && vs[i].routes[j].queue != [] && vs[i].routes[j].queue[0].due <= now
    modifies All(vs)`sent, All(vs)`bytesSent, Queues(vs)
    ensures F.IsHead(n.waiting, k) && n.waiting[k].at == i && n.waiting[k].to == j && i != j
    ensures Simulates(vs, nodes, next, max, F.Apply(n, next, max, F.Release(k)))
    ensures outcome == if n.waiting[k].trip.dest == j then Delivered else Enqueued
    ensures Holds(vs, links, Arrived(q[(i, j) := q[(i, j)][1..]], links, next, j, F.Moved(n.waiting[k]), vtime))
  {
    hide Ready, AllValid, Shows, Addressed, Simulates, Network, Separate, Topology, NextHops, LimitsOf, Queues,
        Destination, Holds, Arrived;
    hide F.Good, F.Apply, F.Arrive, F.Without, F.Moved;
    SimulatesFacts(vs, nodes, next, max, n, i, j);
    k := BeforeRelease(vs, nodes, i, j, next, max, n);
    ghost var g, w, rest := Topology(vs), n.waiting[k], n.(waiting := F.Without(n.waiting, k));
    ghost var m := F.Apply(n, next, max, F.Release(k));
    ReleaseIs(n, next, max, k);
    var to := vs[i].routes[j].dest;
    HeldAt(vs, links, q, i, j);
    ghost var pulled := q[(i, j) := q[(i, j)][1..]];
    var e := PullShown(vs, i, j, links, q, n, k);
    outcome := Accept(vs, nodes, to, e.pkt, vtime, next, max, links, pulled, rest, F.Moved(w));
    Assembled(vs, nodes, next, max, m);
  }

  lemma ReleaseIs(n: F.Net, next: Tables, max: F.Limits, k: nat)
    requires F.IsHead(n.waiting, k)
    ensures F.Apply(n, next, max, F.Release(k)) ==
            F.Arrive(n.(waiting := F.Without(n.waiting, k)), next, max, n.waiting[k].to, F.Moved(n.waiting[k]))
    ensures F.Moved(n.waiting[k]).packet == n.waiting[k].trip.packet
            && F.Moved(n.waiting[k]).dest == n.waiting[k].trip.dest
  {
  }

  lemma Assembled(vs: seq<Router?>, nodes: map<(nat, nat), nat>, next: Tables, max: F.Limits, n: F.Net)
    requires Ready(vs, nodes) && Network(vs) && next == NextHops(vs) && max == LimitsOf(vs)
    requires AllValid(vs) && Shows(vs, n) && Addressed(nodes, n) && F.Good(Topology(vs), next, n)
    ensures Simulates(vs, nodes, next, max, n)
  {
  }

  // ---------------------------------------------------------------- the main loop

  /** The steps es lead from n to m, and are releases only. */
  ghost predicate ReleasesTo(g: Graph, n: F.Net, next: Tables, max: F.Limits, es: seq<F.Step>, m: F.Net) {
    F.CanTake(g, n, next, max, es) && F.OnlyReleases(es) && m == F.After(n, next, max, es)
  }

  lemma NoReleases(g: Graph, n: F.Net, next: Tables, max: F.Limits)
    ensures ReleasesTo(g, n, next, max, [], n)
  {
  }

  lemma OneRelease(g: Graph, n: F.Net, next: Tables, max: F.Limits, es: seq<F.Step>, m: F.Net, k: nat)
    requires ReleasesTo(g, n, next, max, es, m) && F.IsHead(m.waiting, k)
    ensures ReleasesTo(g, n, next, max, es + [F.Release(k)], F.Apply(m, next, max, F.Release(k)))
  {
    hide F.Apply;
    F.OneMoreStep(g, n, next, max, es, F.Release(k));
  }

  lemma ReleasesJoin(g: Graph, n: F.Net, next: Tables, max: F.Limits, es: seq<F.Step>, m: F.Net, fs: seq<F.Step>,
                     l: F.Net)
    requires ReleasesTo(g, n, next, max, es, m) && ReleasesTo(g, m, next, max, fs, l)
    ensures ReleasesTo(g, n, next, max, es + fs, l)
  {
    hide F.CanTake, F.After;
    F.RunsJoin(g, n, next, max, es, fs);
  }

  /** A release leaves fewer hops. */
  lemma HopsShrink(vs: seq<Router?>, nodes: map<(nat, nat), nat>, next: Tables, max: F.Limits, n: F.Net, k: nat)
    requires Simulates(vs, nodes, next, max, n) && k < |n.waiting|
    ensures F.HopsLeft(Topology(vs), F.Apply(n, next, max, F.Release(k)).waiting) < F.HopsLeft(Topology(vs), n.waiting)
  {
    ReadyIsRouted(vs, nodes);
    hide Ready, AllValid, Shows, F.Routed, F.Good, F.HopsLeft, F.Apply, Topology;
    F.ReleaseUsesAHop(Topology(vs), next, max, n, k);
  }

  /** No reading of the clock lies before an earlier one. */
  ghost predicate NeverFalls(clock: nat -> real) {
    forall a: nat, b: nat :: a <= b ==> clock(a) <= clock(b)
  }

  /** The queues hold q, and if the clock never falls no packet has been faster than its links by reading c. */
  ghost predicate Timed(vs: seq<Router?>, n: F.Net, links: Links, q: Contents, clock: nat -> real, c: nat)
    reads All(vs)`routes, Queues(vs)
  {
    Holds(vs, links, q) && (NeverFalls(clock) ==> OnTime(q, n, links, clock(c)))
  }

  lemma TimedLater(vs: seq<Router?>, n: F.Net, links: Links, q: Contents, clock: nat -> real, c: nat, d: nat)
    requires Timed(vs, n, links, q, clock, c) && c <= d
    ensures Timed(vs, n, links, q, clock, d)
  {
    hide OnTime, Holds;
    if NeverFalls(clock) {
      OnTimeLater(q, n, links, clock(c), clock(d));
    }
  }

  lemma LinksTransmit(vs: seq<Router?>, nodes: map<(nat, nat), nat>, links: Links, q: Contents)
    requires Ready(vs, nodes) && Holds(vs, links, q)
    ensures Capacities(links, LimitsOf(vs))
  {
    hide Separate, Connected, TableRight, Topology, LimitsOf;
    forall i: nat, j: nat | Edge(vs, i, j)
      ensures (i, j) in LimitsOf(vs) && LimitsOf(vs)[(i, j)] == links[(i, j)].max && links[(i, j)].rate > 0
    {
      LimitAt(vs, i, j);
    }
    LimitKeys(vs);
    forall e: (nat, nat)
      ensures e in LimitsOf(vs) <==> e in links
    {
      assert e == (e.0, e.1);
    }
  }

  lemma LimitKeys(vs: seq<Router?>)
    requires Network(vs)
    ensures forall i: nat, j: nat :: (i, j) in LimitsOf(vs) <==> Edge(vs, i, j)
  {
    TopologyIsWellFormed(vs);
  }

  /** What a release does to the queues keeps them on time. */
  lemma ReleaseTimed(c: Contents, d: Contents, links: Links, next: Tables, max: F.Limits, n: F.Net, k: nat,
                     clock: nat -> real, at: nat)
    requires NeverFalls(clock) ==> OnTime(c, n, links, clock(at))
    requires Capacities(links, max) && F.IsHead(n.waiting, k)
    requires var e := (n.waiting[k].at, n.waiting[k].to); e in c && c[e] != [] && c[e][0].due <= clock(at)
    requires var w, e := n.waiting[k], (n.waiting[k].at, n.waiting[k].to);
             d == Arrived(c[e := c[e][1..]], links, next, w.to, F.Moved(w), clock(at + 1))
    ensures NeverFalls(clock) ==> OnTime(d, F.Apply(n, next, max, F.Release(k)), links, clock(at + 1))
  {
    hide OnTime, Capacities, Arrived, F.Apply, F.IsHead;
    if NeverFalls(clock) {
      ReleaseOnTime(c, n, links, next, max, k, clock(at), clock(at + 1));
    }
  }

  /** The inner loop of run: whatever is due leaves the queue (i, j), and nothing else. */
  method DrainQueue(vs: seq<Router?>, nodes: map<(nat, nat), nat>, i: nat, j: nat, clock: nat -> real, from: nat,
                    ghost next: Tables, ghost max: F.Limits, ghost links: Links, ghost q: Contents, ghost n: F.Net)
    returns (woken: seq<Router>, c: nat, ghost es: seq<F.Step>, ghost m: F.Net, ghost d: Contents)
    requires Simulates(vs, nodes, next, max, n) && Edge(vs, i, j) && Timed(vs, n, links, q, clock, from)
    modifies All(vs)`sent, All(vs)`bytesSent, Queues(vs)
    ensures Simulates(vs, nodes, next, max, m) && ReleasesTo(Topology(vs), n, next, max, es, m)
    ensures |woken| <= |es| && forall r :: r in woken ==> r in vs && r.id == j
    ensures from <= c && Timed(vs, m, links, d, clock, c)
    ensures vs[i].routes[j].queue == [] || vs[i].routes[j].queue[0].due > clock(c)
    ensures QuietAt(d, i, j, clock, c, c) && Stirred(q, d, i, j, woken != [])
  {
    hide Simulates, ReleasesTo, Queues, Topology, F.HopsLeft, F.Apply, Arrived, OnTime, Capacities, NeverFalls, Holds,
        Stirred;
    woken, c, es, m, d := [], from, [], n, q;
    NoReleases(Topology(vs), n, next, max);
    NothingStirredYet(q, i, j);
    LinksMatch(vs, nodes, next, max, n, links, q);
    var line := vs[i].routes[j];
    HeldAt(vs, links, d, i, j);
    while |line.queue| > 0 && line.queue[0].due <= clock(c)
      invariant Edge(vs, i, j) && vs[i].routes[j] == line && from <= c
      invariant Simulates(vs, nodes, next, max, m) && ReleasesTo(Topology(vs), n, next, max, es, m)
      invariant |woken| <= |es| && forall r :: r in woken ==> r in vs && r.id == j
      invariant Timed(vs, m, links, d, clock, c)
      invariant Stirred(q, d, i, j, woken != []) && (i, j) in d && d[(i, j)] == line.queue
      decreases F.HopsLeft(Topology(vs), m.waiting)
    {
      EdgeLeadsInside(vs, nodes, next, max, m, i, j);
      ghost var k;
      var outcome;
      ghost var g, was := Topology(vs), d;
      outcome, k := Release(vs, nodes, i, j, clock(c), clock(c + 1), next, max, links, d, m);
      d := Arrived(was[(i, j) := was[(i, j)][1..]], links, next, j, F.Moved(m.waiting[k]), clock(c + 1));
      ReleaseTimed(was, d, links, next, max, m, k, clock, c);
      StirredByRelease(q, was, i, j, woken != [], was[(i, j)][1..], links, next, F.Moved(m.waiting[k]), clock(c + 1));
      HeldAt(vs, links, d, i, j);
      c := c + 1;
      if outcome == Enqueued {
        woken := woken + [line.dest];
      }
      OneRelease(g, n, next, max, es, m, k);
      es, m := es + [F.Release(k)], F.Apply(m, next, max, F.Release(k));
    }
  }

  lemma HeldAt(vs: seq<Router?>, links: Links, q: Contents, i: nat, j: nat)
    requires Holds(vs, links, q) && Edge(vs, i, j)
    ensures (i, j) in q && q[(i, j)] == vs[i].routes[j].queue
  {
  }

  lemma NothingStirredYet(q: Contents, i: nat, j: nat)
    ensures Stirred(q, q, i, j, false)
  {
  }

  lemma LinksMatch(vs: seq<Router?>, nodes: map<(nat, nat), nat>, next: Tables, max: F.Limits, n: F.Net, links: Links,
                   q: Contents)
    requires Simulates(vs, nodes, next, max, n) && Holds(vs, links, q)
    ensures Capacities(links, max)
  {
    LinksTransmit(vs, nodes, links, q);
    hide Ready, AllValid, Shows, Addressed, F.Good, Capacities, Holds;
  }

  lemma EdgeLeadsInside(vs: seq<Router?>, nodes: map<(nat, nat), nat>, next: Tables, max: F.Limits, n: F.Net, i: nat,
                        j: nat)
    requires Simulates(vs, nodes, next, max, n) && Edge(vs, i, j)
    ensures vs[i].routes[j].dest in vs && vs[i].routes[j].dest.id == j
    ensures forall k: nat :: k < |n.waiting| ==>
              F.HopsLeft(Topology(vs), F.Apply(n, next, max, F.Release(k)).waiting) <
              F.HopsLeft(Topology(vs), n.waiting)
  {
    forall k: nat | k < |n.waiting|
      ensures F.HopsLeft(Topology(vs), F.Apply(n, next, max, F.Release(k)).waiting) <
              F.HopsLeft(Topology(vs), n.waiting)
    {
      HopsShrink(vs, nodes, next, max, n, k);
    }
    hide Topology, F.HopsLeft, F.Apply, Shows, AllValid;
  }

  function Ids(rs: seq<Router>): (ids: set<nat>) {
    set r | r in rs :: r.id
  }

  /**
    run: every queue of the router releases what is due, and ends up empty or with a head
    not due by a reading taken meanwhile; the routers that got something new are to run again.
   */
  method Run(vs: seq<Router?>, nodes: map<(nat, nat), nat>, self: Router, clock: nat -> real, from: nat,
             ghost next: Tables, ghost max: F.Limits, ghost links: Links, ghost q: Contents, ghost n: F.Net)
    returns (woken: seq<Router>, c: nat, ghost es: seq<F.Step>, ghost m: F.Net, ghost d: Contents)
    requires Simulates(vs, nodes, next, max, n) && self in vs && Timed(vs, n, links, q, clock, from)
    modifies All(vs)`sent, All(vs)`bytesSent, Queues(vs)
    ensures Simulates(vs, nodes, next, max, m) && ReleasesTo(Topology(vs), n, next, max, es, m)
    ensures |woken| <= |es| && forall r :: r in woken ==> r in vs
    ensures from <= c && Timed(vs, m, links, d, clock, c)
    ensures AllQuiet(d, {self.id}, clock, from, c) && OnlyAt(q, d, self.id, Ids(woken))
  {
    hide Simulates, ReleasesTo, Queues, Topology, OnTime, NeverFalls, QuietAt, Stirred, OnlyAt, Holds, Timed, AllQuiet;
    woken, c, es, m, d := [], from, [], n, q;
    NoReleases(Topology(vs), n, next, max);
    NothingDoneYet(q, self.id, Ids(woken));
    for j := 0 to |self.routes|
      invariant Simulates(vs, nodes, next, max, m) && ReleasesTo(Topology(vs), n, next, max, es, m)
      invariant |woken| <= |es| && forall r :: r in woken ==> r in vs
      invariant from <= c && Timed(vs, m, links, d, clock, c) && OnlyAt(q, d, self.id, Ids(woken))
      invariant forall l: nat :: l < j ==> QuietAt(d, self.id, l, clock, from, c)
    {
      PlaceOf(vs, nodes, next, max, m, self);
      if self.routes[j] != null {
        var more;
        ghost var fs, l, was, b, before := [], m, d, c, Ids(woken);
        ghost var g := Topology(vs);
        TimedLater(vs, m, links, d, clock, c, c + 1);
        more, c, fs, l, d := DrainQueue(vs, nodes, self.id, j, clock, c + 1, next, max, links, d, m);
        ReleasesJoin(g, n, next, max, es, m, fs, l);
        WokenOneMore(woken, more, j);
        woken, es, m := woken + more, es + fs, l;
        DrainedOneMore(q, was, d, self.id, j, more != [], before, Ids(woken), clock, from, b, c);
      } else {
        NoQueueThere(vs, m, links, d, self, j, clock, from, c);
      }
    }
    PlaceOf(vs, nodes, next, max, m, self);
    NoQueuesBeyond(vs, m, links, d, self, clock, from, c);
  }

  lemma NothingDoneYet(q: Contents, i: nat, woken: set<nat>)
    ensures OnlyAt(q, q, i, woken)
  {
  }

  lemma WokenOneMore(woken: seq<Router>, more: seq<Router>, j: nat)
    requires forall r :: r in more ==> r.id == j
    ensures Ids(woken) <= Ids(woken + more) && (more != [] ==> j in Ids(woken + more))
  {
    assert forall r :: r in woken ==> r in woken + more;
    if more != [] {
      assert more[0] in woken + more && more[0].id == j;
    }
  }

  lemma NoQueueThere(vs: seq<Router?>, n: F.Net, links: Links, q: Contents, x: Router, j: nat, clock: nat -> real,
                     from: nat, c: nat)
    requires Timed(vs, n, links, q, clock, c) && x.id < |vs| && vs[x.id] == x
    requires j >= |x.routes| || x.routes[j] == null
    ensures QuietAt(q, x.id, j, clock, from, c)
  {
    hide OnTime;
  }

  lemma NoQueuesBeyond(vs: seq<Router?>, n: F.Net, links: Links, q: Contents, x: Router, clock: nat -> real, from: nat,
                       c: nat)
    requires Timed(vs, n, links, q, clock, c) && x.id < |vs| && vs[x.id] == x
    requires forall l: nat :: l < |x.routes| ==> QuietAt(q, x.id, l, clock, from, c)
    ensures AllQuiet(q, {x.id}, clock, from, c)
  {
    hide Timed, QuietAt;
    forall j: nat
      ensures QuietAt(q, x.id, j, clock, from, c)
    {
      if j >= |x.routes| {
        NoQueueThere(vs, n, links, q, x, j, clock, from, c);
      }
    }
  }

  lemma PlaceOf(vs: seq<Router?>, nodes: map<(nat, nat), nat>, next: Tables, max: F.Limits, n: F.Net, r: Router)
    requires Simulates(vs, nodes, next, max, n) && r in vs
    ensures r.id < |vs| && vs[r.id] == r
  {
    ReadyFacts(vs, nodes, r);
  }

  lemma ReleasesUseHops(vs: seq<Router?>, nodes: map<(nat, nat), nat>, next: Tables, max: F.Limits, n: F.Net,
                        es: seq<F.Step>, m: F.Net)
    requires Simulates(vs, nodes, next, max, n) && ReleasesTo(Topology(vs), n, next, max, es, m)
    ensures |es| + F.HopsLeft(Topology(vs), m.waiting) <= F.HopsLeft(Topology(vs), n.waiting)
  {
    ReadyIsRouted(vs, nodes);
    hide Ready, AllValid, Shows, F.Routed, F.Good, F.HopsLeft, Topology;
    F.QueuesRunEmpty(Topology(vs), next, max, n, es);
  }

  /**
    The loop of main over the routers that are to run.  It ends, however many routers wake
    each other, because every release leaves fewer hops to make; and when it ends, none of
    the routers has a queue whose head was due by all the readings taken meanwhile.
   */
  method RunAll(vs: seq<Router?>, nodes: map<(nat, nat), nat>, first: seq<Router>, clock: nat -> real, from: nat,
                ghost next: Tables, ghost max: F.Limits, ghost links: Links, ghost q: Contents, ghost n: F.Net)
    returns (c: nat, ghost es: seq<F.Step>, ghost m: F.Net, ghost d: Contents)
    requires Simulates(vs, nodes, next, max, n) && (forall r :: r in first ==> r in vs)
            && Timed(vs, n, links, q, clock, from)
    modifies All(vs)`sent, All(vs)`bytesSent, Queues(vs)
    ensures Simulates(vs, nodes, next, max, m) && ReleasesTo(Topology(vs), n, next, max, es, m)
    ensures from <= c && Timed(vs, m, links, d, clock, c) && AllQuiet(d, Ids(first), clock, from, c)
  {
    hide Simulates, ReleasesTo, Queues, Topology, F.HopsLeft, Timed, AllQuiet, OnlyAt;
    var runRouters := first;
    c, es, m, d := from, [], n, q;
    NoReleases(Topology(vs), n, next, max);
    ghost var quiet: set<nat> := {};
    NobodyIsQuiet(q, clock, from);
    while runRouters != []
      invariant Simulates(vs, nodes, next, max, m) && ReleasesTo(Topology(vs), n, next, max, es, m)
      invariant forall r :: r in runRouters ==> r in vs
      invariant from <= c && Timed(vs, m, links, d, clock, c)
      invariant AllQuiet(d, quiet, clock, from, c) && Ids(first) <= quiet + Ids(runRouters)
      decreases F.HopsLeft(Topology(vs), m.waiting), |runRouters|
    {
      var router := runRouters[0];
      assert router in runRouters;
      ghost var rest := runRouters[1..];
      assert runRouters == [router] + rest;
      runRouters := runRouters[1..];
      var woken;
      ghost var fs, l;
      ghost var g, was, b := Topology(vs), d, c;
      HopsAfter(vs, nodes, next, max, m);
      woken, c, fs, l, d := Run(vs, nodes, router, clock, c, next, max, links, d, m);
      ReleasesJoin(g, n, next, max, es, m, fs, l);
      RunOneMore(was, d, quiet, router.id, Ids(woken), clock, from, b, c);
      quiet := (quiet - Ids(woken)) + {router.id};
      runRouters, es, m := runRouters + woken, es + fs, l;
    }
    FewerAreQuiet(d, quiet, Ids(first), clock, from, c);
  }

  lemma NobodyIsQuiet(q: Contents, clock: nat -> real, from: nat)
    ensures AllQuiet(q, {}, clock, from, from)
  {
  }

  lemma FewerAreQuiet(q: Contents, ids: set<nat>, fewer: set<nat>, clock: nat -> real, from: nat, c: nat)
    requires AllQuiet(q, ids, clock, from, c) && fewer <= ids
    ensures AllQuiet(q, fewer, clock, from, c)
  {
    hide QuietAt;
  }

  lemma HopsAfter(vs: seq<Router?>, nodes: map<(nat, nat), nat>, next: Tables, max: F.Limits, n: F.Net)
    requires Simulates(vs, nodes, next, max, n)
    ensures forall es: seq<F.Step>, m: F.Net :: ReleasesTo(Topology(vs), n, next, max, es, m) ==>
              |es| + F.HopsLeft(Topology(vs), m.waiting) <= F.HopsLeft(Topology(vs), n.waiting)
  {
    hide Simulates, ReleasesTo, Topology, F.HopsLeft;
    forall es: seq<F.Step>, m: F.Net | ReleasesTo(Topology(vs), n, next, max, es, m)
      ensures |es| + F.HopsLeft(Topology(vs), m.waiting) <= F.HopsLeft(Topology(vs), n.waiting)
    {
      ReleasesUseHops(vs, nodes, next, max, n, es, m);
    }
  }

  /** The run es from the empty network leads to n. */
  ghost predicate Reached(g: Graph, next: Tables, max: F.Limits, es: seq<F.Step>, n: F.Net) {
    F.CanTake(g, F.EMPTY, next, max, es) && n == F.After(F.EMPTY, next, max, es)
  }

  lemma ReachedThenReleases(g: Graph, next: Tables, max: F.Limits, es: seq<F.Step>, n: F.Net, fs: seq<F.Step>, m: F.Net)
    requires Reached(g, next, max, es, n) && ReleasesTo(g, n, next, max, fs, m)
    ensures Reached(g, next, max, es + fs, m) && F.Entries(es + fs) == F.Entries(es)
  {
    F.RunsJoin(g, F.EMPTY, next, max, es, fs);
    ReleasesInjectNothing(es, fs);
  }

  lemma {:induction false} ReleasesInjectNothing(es: seq<F.Step>, fs: seq<F.Step>)
    requires F.OnlyReleases(fs)
    ensures F.Entries(es + fs) == F.Entries(es)
  {
    if fs == [] {
      assert es + fs == es;
    } else {
      var front := fs[..|fs| - 1];
      ReleasesInjectNothing(es, front);
      assert (es + fs)[..|es + fs| - 1] == es + front;
    }
  }

  lemma ReachedThenInjected(g: Graph, next: Tables, max: F.Limits, es: seq<F.Step>, n: F.Net, r: nat, p: Packet, d: nat,
                            since: real)
    requires Reached(g, next, max, es, n) && r in g.nodes && d in g.nodes
    ensures var e := F.Inject(r, p, d, since);
            Reached(g, next, max, es + [e], F.Apply(n, next, max, e))
                && F.Entries(es + [e]) == F.Entries(es) + [F.Entry(r, p, d, since)]
  {
    var e := F.Inject(r, p, d, since);
    F.OneMoreStep(g, F.EMPTY, next, max, es, e);
    assert (es + [e])[..|es|] == es;
  }

  /** The packet enters at a router there is and is for a node the node file lists. */
  predicate Admitted(vs: seq<Router?>, nodes: map<(nat, nat), nat>, r: nat, p: Packet) {
    r < |vs| && vs[r] != null && Destination(nodes, p).Some?
  }

  lemma BeforeInjection(vs: seq<Router?>, nodes: map<(nat, nat), nat>, next: Tables, max: F.Limits, n: F.Net, r: nat,
                        p: Packet, since: real)
    requires Simulates(vs, nodes, next, max, n) && Admitted(vs, nodes, r, p)
    ensures var d := Destination(nodes, p).value;
            && vs[r].id == r && r in Topology(vs).nodes && d in Topology(vs).nodes
            && Addressed(nodes, F.Arrive(n, next, max, r, F.Trip(p, d, since, [r])))
            && F.Good(Topology(vs), next, F.Arrive(n, next, max, r, F.Trip(p, d, since, [r])))
            && Ready(vs, nodes) && Network(vs) && AllValid(vs) && Shows(vs, n) && next == NextHops(vs)
                && max == LimitsOf(vs)
  {
    var d := Destination(nodes, p).value;
    assert r in Topology(vs).nodes && d in nodes.Values;
    ReadyIsRouted(vs, nodes);
    hide Ready, AllValid, Shows, F.Routed, F.Good, F.Arrive, Topology;
    ArriveKeepsAddresses(nodes, n, next, max, r, F.Trip(p, d, since, [r]));
    hide Addressed;
    F.StepKeeps(Topology(vs), next, max, n, F.Inject(r, p, d, since));
  }

  lemma InjectIs(n: F.Net, next: Tables, max: F.Limits, r: nat, p: Packet, d: nat, since: real)
    ensures F.Apply(n, next, max, F.Inject(r, p, d, since)) == F.Arrive(n, next, max, r, F.Trip(p, d, since, [r]))
  {
  }

  /** A packet from outside enters at router r, at reading c. */
  method Insert(vs: seq<Router?>, nodes: map<(nat, nat), nat>, r: nat, p: Packet, clock: nat -> real, c: nat,
                ghost next: Tables, ghost max: F.Limits, ghost links: Links, ghost q: Contents, ghost n: F.Net)
    returns (woken: seq<Router>, ghost m: F.Net, ghost d: Contents)
    requires Simulates(vs, nodes, next, max, n) && Admitted(vs, nodes, r, p) && Timed(vs, n, links, q, clock, c)
    modifies All(vs)`sent, All(vs)`bytesSent, Queues(vs)
    ensures Simulates(vs, nodes, next, max, m)
            && m == F.Apply(n, next, max, F.Inject(r, p, Destination(nodes, p).value, clock(c)))
    ensures Timed(vs, m, links, d, clock, c) && forall x :: x in woken ==> x in vs
  {
    hide Ready, AllValid, Shows, Addressed, Simulates, Network, Topology, NextHops, LimitsOf, Queues, Destination;
    hide F.Good, F.Arrive, F.Apply, OnTime, Arrived, Capacities, NeverFalls, Holds;
    var vtime := clock(c);
    LinksMatch(vs, nodes, next, max, n, links, q);
    BeforeInjection(vs, nodes, next, max, n, r, p, vtime);
    ghost var x := Destination(nodes, p).value;
    m := F.Apply(n, next, max, F.Inject(r, p, x, vtime));
    d := Arrived(q, links, next, r, F.Trip(p, x, vtime, [r]), vtime);
    InjectIs(n, next, max, r, p, x, vtime);
    var outcome := Accept(vs, nodes, vs[r], p, vtime, next, max, links, q, n, F.Trip(p, x, vtime, [r]));
    if NeverFalls(clock) {
      InjectOnTime(q, n, links, next, max, r, p, x, vtime);
    }
    woken := if outcome == Enqueued then [vs[r]] else [];
    Assembled(vs, nodes, next, max, m);
  }

  lemma QueuesAreValid(vs: seq<Router?>)
    requires Idle(vs)
    ensures AllValid(vs)
  {
  }

  lemma NothingShown(vs: seq<Router?>)
    requires Idle(vs) && forall i: nat :: i < |vs| && vs[i] != null ==> vs[i].sent == []
    ensures Shows(vs, F.EMPTY)
  {
    forall k: nat, l: nat | Edge(vs, k, l)
      ensures vs[k].routes[l] in Queues(vs) && PacketsAt(vs, k, l) == PacketsOf(F.Queue([], k, l))
    {
    }
  }

  /** A network just read in, with its tables made, shows the empty net. */
  lemma ReadyToStart(vs: seq<Router?>, nodes: map<(nat, nat), nat>)
    requires Network(vs) && Separate(vs) && Idle(vs) && Connected(Topology(vs)) && nodes.Values <= Topology(vs).nodes
    requires forall i: nat :: i < |vs| && vs[i] != null ==> vs[i].sent == [] && vs[i].nodes == nodes
    requires forall i :: 0 <= i < |vs| && vs[i] != null ==>
            TableRight(Topology(vs), vs[i].id, vs[i].routes, vs[i].routingTable)
    ensures Simulates(vs, nodes, NextHops(vs), LimitsOf(vs), F.EMPTY)
  {
    QueuesAreValid(vs);
    NothingShown(vs);
    hide Connected, TableRight, Topology, NextHops, LimitsOf, AllValid, Shows, Separate, Network, NSQueue.Valid;
  }

  lemma FreshFacts(vs: seq<Router?>, nodes: map<(nat, nat), nat>)
    requires Fresh(vs, nodes)
    ensures Network(vs) && Separate(vs) && Idle(vs)
    ensures forall i: nat :: i < |vs| && vs[i] != null ==> vs[i].sent == [] && vs[i].nodes == nodes
  {
  }

  /** The loop of main that makes the tables. */
  method MakeTables(vs: seq<Router?>, nodes: map<(nat, nat), nat>)
    requires Fresh(vs, nodes) && PredecessorsKnown(vs) && Connected(Topology(vs))
    requires |Topology(vs).nodes| < Dijkstra.INFINITY && nodes.Values <= Topology(vs).nodes
    modifies All(vs)`distance, All(vs)`predecessor, All(vs)`done, All(vs)`routingTable
    ensures Topology(vs) == old(Topology(vs)) && Queues(vs) == old(Queues(vs))
    ensures Network(vs) && Simulates(vs, nodes, NextHops(vs), LimitsOf(vs), F.EMPTY)
    ensures Holds(vs, old(LinksOf(vs)), Nothing(old(LinksOf(vs))))
  {
    hide Fresh, Topology, Nodes, Connected, Separate, Network, PredecessorsKnown, TableRight, TablesRight, NextHops;
    hide LimitsOf, LinksOf, Simulates, Nothing;
    FreshFacts(vs, nodes);
    NothingHeld(vs);
    NodesOfTopology(vs);
    CreateTables(vs);
    ReadyToStart(vs, nodes);
  }

  /** main up to the point where it listens for packets. */
  method SetUp(lines: seq<Line>, nodes: map<(nat, nat), nat>) returns (vs: seq<Router?>)
    requires forall k :: 0 <= k < |lines| ==> lines[k].bps >= 8
    requires Connected(Described(lines)) && |Described(lines).nodes| < Dijkstra.INFINITY
    requires nodes.Values <= Described(lines).nodes
    ensures Topology(vs) == Described(lines) && Network(vs)
    ensures Simulates(vs, nodes, NextHops(vs), LimitsOf(vs), F.EMPTY)
    ensures Holds(vs, DescribedLinks(lines), Nothing(DescribedLinks(lines)))
    ensures fresh(Queues(vs)) && forall i :: 0 <= i < |vs| && vs[i] != null ==> fresh(vs[i])
  {
    hide Fresh, Connected, Network, PredecessorsKnown, NextHops, LimitsOf, Simulates, Topology, Described, Queues,
        LinksOf, DescribedLinks, Holds, Nothing;
    vs := ReadMap(lines, nodes);
    MakeTables(vs, nodes);
  }

  lemma NodesOfTopology(vs: seq<Router?>)
    ensures Nodes(vs, |vs|) == Topology(vs).nodes
  {
  }

  /** The packets that get into the network: where and when each comes in, and which router it is for. */
  function Admissions(vs: seq<Router?>, nodes: map<(nat, nat), nat>, inputs: seq<(nat, Packet)>, clock: nat -> real,
                      starts: seq<nat>): seq<F.Entry>
    requires |starts| == |inputs|
  {
    if inputs == [] then []
    else
      var last := |inputs| - 1;
      Admissions(vs, nodes, inputs[..last], clock, starts[..last]) +
      Admission(vs, nodes, inputs[last].0, inputs[last].1, clock(starts[last]))
  }

  function Admission(vs: seq<Router?>, nodes: map<(nat, nat), nat>, r: nat, p: Packet, since: real): seq<F.Entry> {
    if Admitted(vs, nodes, r, p) then [F.Entry(r, p, Destination(nodes, p).value, since)] else []
  }

  lemma OneMoreAdmission(vs: seq<Router?>, nodes: map<(nat, nat), nat>, inputs: seq<(nat, Packet)>,
                         clock: nat -> real, starts: seq<nat>, k: nat)
    requires |starts| == k + 1 <= |inputs|
    ensures Admissions(vs, nodes, inputs[..k + 1], clock, starts) ==
            Admissions(vs, nodes, inputs[..k], clock, starts[..k]) +
            Admission(vs, nodes, inputs[k].0, inputs[k].1, clock(starts[k]))
  {
    assert inputs[..k + 1][..k] == inputs[..k];
  }

  /**
    One turn of the endless loop of main: a packet that is admitted is inserted, any other
    changes nothing, and then every router runs, until no queue has a head that was due by
    all the readings taken meanwhile.
   */
  method Turn(vs: seq<Router?>, nodes: map<(nat, nat), nat>, r: nat, p: Packet, clock: nat -> real, from: nat,
              ghost next: Tables, ghost max: F.Limits, ghost links: Links, ghost q: Contents, ghost n: F.Net,
              ghost es: seq<F.Step>)
    returns (c: nat, ghost m: F.Net, ghost fs: seq<F.Step>, ghost d: Contents)
    requires Simulates(vs, nodes, next, max, n) && Reached(Topology(vs), next, max, es, n)
    requires Timed(vs, n, links, q, clock, from)
    modifies All(vs)`sent, All(vs)`bytesSent, Queues(vs)
    ensures Simulates(vs, nodes, next, max, m) && Reached(Topology(vs), next, max, fs, m)
    ensures F.Entries(fs) == F.Entries(es) + Admission(vs, nodes, r, p, clock(from))
    ensures from < c && Timed(vs, m, links, d, clock, c) && AllQuiet(d, Topology(vs).nodes, clock, from + 1, c)
  {
    hide Simulates, Reached, Queues, Topology, F.Apply, Destination, ReleasesTo, F.Entries, Timed, AllQuiet;
    var runRouters: seq<Router> := [];
    m, fs, d := n, es, q;
    ghost var g := Topology(vs);
    if Admitted(vs, nodes, r, p) {
      NodesInside(vs, nodes, next, max, n, r, p);
      runRouters, m, d := Insert(vs, nodes, r, p, clock, from, next, max, links, q, n);
      ghost var e := F.Inject(r, p, Destination(nodes, p).value, clock(from));
      ReachedThenInjected(g, next, max, es, n, r, p, Destination(nodes, p).value, clock(from));
      fs := es + [e];
    }
    for i := 0 to |vs|
      invariant forall x :: x in runRouters ==> x in vs
      invariant forall k :: 0 <= k < i && vs[k] != null ==> vs[k] in runRouters
    {
      if vs[i] != null {
        runRouters := runRouters + [vs[i]];
      }
    }
    NetworkNow(vs, nodes, next, max, m);
    EveryRouterRuns(vs, runRouters);
    TimedLater(vs, m, links, d, clock, from, from + 1);
    ghost var ls, l;
    c, ls, l, d := RunAll(vs, nodes, runRouters, clock, from + 1, next, max, links, d, m);
    FewerAreQuiet(d, Ids(runRouters), g.nodes, clock, from + 1, c);
    ReachedThenReleases(g, next, max, fs, m, ls, l);
    fs, m := fs + ls, l;
  }

  lemma NetworkNow(vs: seq<Router?>, nodes: map<(nat, nat), nat>, next: Tables, max: F.Limits, n: F.Net)
    requires Simulates(vs, nodes, next, max, n)
    ensures Network(vs)
  {
  }

  lemma EveryRouterRuns(vs: seq<Router?>, rs: seq<Router>)
    requires Network(vs) && forall k :: 0 <= k < |vs| && vs[k] != null ==> vs[k] in rs
    ensures Topology(vs).nodes <= Ids(rs)
  {
    forall i | i in Topology(vs).nodes
      ensures i in Ids(rs)
    {
      assert vs[i].id == i && vs[i] in rs;
    }
  }

  lemma NodesInside(vs: seq<Router?>, nodes: map<(nat, nat), nat>, next: Tables, max: F.Limits, n: F.Net, r: nat,
                    p: Packet)
    requires Simulates(vs, nodes, next, max, n) && Admitted(vs, nodes, r, p)
    ensures r in Topology(vs).nodes && Destination(nodes, p).value in Topology(vs).nodes
  {
    assert Destination(nodes, p).value in nodes.Values;
  }

  /** Empty queues. */
  function Nothing(links: Links): (q: Contents)
    ensures q.Keys == links.Keys && forall e :: e in q ==> q[e] == []
  {
    map e | e in links :: []
  }

  lemma NothingHeld(vs: seq<Router?>)
    requires Network(vs) && Idle(vs)
    ensures Holds(vs, LinksOf(vs), Nothing(LinksOf(vs)))
  {
    hide NSQueue.Valid, LinksOf, Topology;
    TopologyIsWellFormed(vs);
    forall i: nat, j: nat | Edge(vs, i, j)
      ensures vs[i].routes[j] in Queues(vs) && vs[i].routes[j].queue == []
      ensures LinksOf(vs)[(i, j)] == LinkOf(vs[i].routes[j])
    {
      LinkAt(vs, i, j);
    }
  }

  /** The empty network is on time and quiet. */
  lemma StartTimed(vs: seq<Router?>, links: Links, clock: nat -> real)
    requires Holds(vs, links, Nothing(links))
    ensures Timed(vs, F.EMPTY, links, Nothing(links), clock, 0)
    ensures forall ids :: AllQuiet(Nothing(links), ids, clock, 0, 0)
  {
    hide Holds, Edge;
    forall i: nat, j: nat | (i, j) in Nothing(links)
      ensures InTime([], F.Queue([], i, j), links, j)
    {
    }
  }

  /** Readings taken one after the other. */
  ghost predicate Ascending(starts: seq<nat>, before: nat) {
    && (forall i, j :: 0 <= i < j < |starts| ==> starts[i] < starts[j])
    && forall i :: 0 <= i < |starts| ==> starts[i] < before
  }

  /**
    The endless loop of main, as far as packets come in.  Input k is looked at under reading
    starts[k], and the last turn takes the readings from last to c.
   */
  method Serve(vs: seq<Router?>, nodes: map<(nat, nat), nat>, inputs: seq<(nat, Packet)>, clock: nat -> real,
               ghost next: Tables, ghost max: F.Limits, ghost links: Links)
    returns (ghost n: F.Net, ghost es: seq<F.Step>, ghost q: Contents, ghost starts: seq<nat>, ghost last: nat,
             ghost c: nat)
    requires Simulates(vs, nodes, next, max, F.EMPTY) && Holds(vs, links, Nothing(links))
    modifies All(vs)`sent, All(vs)`bytesSent, Queues(vs)
    ensures Simulates(vs, nodes, next, max, n) && Reached(Topology(vs), next, max, es, n)
    ensures |starts| == |inputs| && Ascending(starts, if last == 0 then 1 else last)
    ensures F.Entries(es) == Admissions(vs, nodes, inputs, clock, starts)
    ensures Timed(vs, n, links, q, clock, c) && last <= c && AllQuiet(q, Topology(vs).nodes, clock, last, c)
  {
    hide Simulates, Reached, Queues, Topology, Admission, Admissions, F.Entries, Timed, AllQuiet, Nothing;
    n, es, q, starts, last, c := F.EMPTY, [], Nothing(links), [], 0, 0;
    NothingYet(Topology(vs), next, max);
    NoAdmissions(vs, nodes, clock);
    StartTimed(vs, links, clock);
    var reading := 0;
    for k := 0 to |inputs|
      invariant Simulates(vs, nodes, next, max, n) && Reached(Topology(vs), next, max, es, n)
      invariant |starts| == k && c == reading && last <= c && Ascending(starts, if last == 0 then 1 else last)
      invariant F.Entries(es) == Admissions(vs, nodes, inputs[..k], clock, starts)
      invariant Timed(vs, n, links, q, clock, reading) && AllQuiet(q, Topology(vs).nodes, clock, last, c)
    {
      TimedLater(vs, n, links, q, clock, reading, reading + 1);
      OneMoreAdmission(vs, nodes, inputs, clock, starts + [reading + 1], k);
      assert (starts + [reading + 1])[..k] == starts;
      starts, last := starts + [reading + 1], reading + 2;
      reading, n, es, q :=
        Turn(vs, nodes, inputs[k].0, inputs[k].1, clock, reading + 1, next, max, links, q, n, es);
      c := reading;
    }
    assert inputs[..|inputs|] == inputs;
  }

  lemma NoAdmissions(vs: seq<Router?>, nodes: map<(nat, nat), nat>, clock: nat -> real)
    ensures forall inputs: seq<(nat, Packet)> :: Admissions(vs, nodes, inputs[..0], clock, []) == []
  {
  }

  /**
    The whole program on a map, a node list and the packets that come in: it reads the map,
    makes all the tables, and serves the packets one after the other.  What the queues and
    sockets hold in the end is what a run of module Forwarding leaves, so everything proved
    there about runs holds of the program.  No queue is left with a head that was due by
    all the readings of the last turn, and under a clock that never falls no packet has
    come faster than the links of the map allow.
   */
  method Simulate(lines: seq<Line>, nodes: map<(nat, nat), nat>, inputs: seq<(nat, Packet)>, clock: nat -> real)
    returns (vs: seq<Router?>, ghost next: Tables, ghost max: F.Limits, ghost n: F.Net, ghost es: seq<F.Step>,
             ghost q: Contents, ghost starts: seq<nat>, ghost last: nat, ghost c: nat)
    requires forall k :: 0 <= k < |lines| ==> lines[k].bps >= 8
    requires Connected(Described(lines)) && |Described(lines).nodes| < Dijkstra.INFINITY
    requires nodes.Values <= Described(lines).nodes
    ensures Topology(vs) == Described(lines) && F.Routed(Described(lines), next, max)
    ensures Simulates(vs, nodes, next, max, n) && Reached(Described(lines), next, max, es, n)
    ensures |starts| == |inputs| && Ascending(starts, if last == 0 then 1 else last)
    ensures F.Entries(es) == Admissions(vs, nodes, inputs, clock, starts)
    ensures Timed(vs, n, DescribedLinks(lines), q, clock, c) && last <= c
    ensures AllQuiet(q, Described(lines).nodes, clock, last, c)
  {
    hide Simulates, Reached, Described, Topology, Connected, NextHops, LimitsOf, F.Routed, F.Entries, Admissions,
        Queues, DescribedLinks, Timed, AllQuiet, Holds, Nothing, Network;
    vs := SetUp(lines, nodes);
    next, max := NextHops(vs), LimitsOf(vs);
    RoutedNow(vs, nodes, next, max, F.EMPTY);
    n, es, q, starts, last, c := Serve(vs, nodes, inputs, clock, next, max, DescribedLinks(lines));
  }

  lemma NothingYet(g: Graph, next: Tables, max: F.Limits)
    ensures Reached(g, next, max, [], F.EMPTY) && F.Entries([]) == []
  {
  }

  lemma RoutedNow(vs: seq<Router?>, nodes: map<(nat, nat), nat>, next: Tables, max: F.Limits, n: F.Net)
    requires Simulates(vs, nodes, next, max, n)
    ensures F.Routed(Topology(vs), next, max)
  {
    ReadyIsRouted(vs, nodes);
  }

  /** What router x has sent out on its socket came in as a packet for x. */
  lemma SocketsSendWhatCameIn(vs: seq<Router?>, nodes: map<(nat, nat), nat>, next: Tables, max: F.Limits, n: F.Net,
                              es: seq<F.Step>, x: nat, p: Packet)
    requires Simulates(vs, nodes, next, max, n) && Reached(Topology(vs), next, max, es, n)
    requires x < |vs| && vs[x] != null && p in vs[x].sent
    ensures exists r: nat, since: real :: F.Entry(r, p, x, since) in F.Entries(es)
  {
    hide *;
    RoutedNow(vs, nodes, next, max, n);
    SentIsDelivered(vs, nodes, next, max, n, x);
    ReachedIs(Topology(vs), next, max, es, n);
    F.DeliveredCameIn(Topology(vs), next, max, es, x, p);
  }

  lemma SentIsDelivered(vs: seq<Router?>, nodes: map<(nat, nat), nat>, next: Tables, max: F.Limits, n: F.Net, x: nat)
    requires Simulates(vs, nodes, next, max, n) && x < |vs| && vs[x] != null
    ensures vs[x].sent == F.DeliveredBy(n.delivered, x)
  {
    hide Ready, AllValid, Addressed, F.Good;
  }

  /**
    Once everything is due, everything has moved on: if the head of no queue is due only
    after some reading of the last turn, nothing waits any more, and the packets that came
    in are exactly those delivered or dropped.
   */
  lemma NothingWaitsOnceDue(vs: seq<Router?>, nodes: map<(nat, nat), nat>, next: Tables, max: F.Limits, n: F.Net,
                            es: seq<F.Step>, links: Links, q: Contents, clock: nat -> real, last: nat, c: nat)
    requires Simulates(vs, nodes, next, max, n) && Reached(Topology(vs), next, max, es, n)
    requires Holds(vs, links, q) && AllQuiet(q, Topology(vs).nodes, clock, last, c)
    requires forall i: nat, j: nat, k: nat :: (i, j) in q && q[(i, j)] != [] && last <= k <= c ==>
               q[(i, j)][0].due <= clock(k)
    ensures n.waiting == []
    ensures multiset(F.Entries(es)) == F.Origins(n.delivered) + F.Origins(n.dropped)
  {
    hide Simulates, Reached, Topology, F.Entries, F.Origins, F.Routed, Holds;
    EveryQueueIsEmpty(q, Topology(vs).nodes, clock, last, c);
    if n.waiting != [] {
      var i, j := SomethingIsHeld(vs, nodes, next, max, n, links, q);
    }
    RoutedNow(vs, nodes, next, max, n);
    ReachedIs(Topology(vs), next, max, es, n);
    F.NothingVanishes(Topology(vs), next, max, es);
    NothingWaiting(n);
  }

  lemma EveryQueueIsEmpty(q: Contents, ids: set<nat>, clock: nat -> real, last: nat, c: nat)
    requires AllQuiet(q, ids, clock, last, c)
    requires forall i: nat, j: nat, k: nat :: (i, j) in q && q[(i, j)] != [] && last <= k <= c ==>
               q[(i, j)][0].due <= clock(k)
    ensures forall i: nat, j: nat :: i in ids && (i, j) in q ==> q[(i, j)] == []
  {
    forall i: nat, j: nat | i in ids && (i, j) in q
      ensures q[(i, j)] == []
    {
      assert QuietAt(q, i, j, clock, last, c);
    }
  }

  lemma NothingWaiting(n: F.Net)
    requires n.waiting == []
    ensures F.Everything(n) == F.Origins(n.delivered) + F.Origins(n.dropped)
  {
    assert F.Trips(n.waiting) == [];
  }

  lemma SomethingIsHeld(vs: seq<Router?>, nodes: map<(nat, nat), nat>, next: Tables, max: F.Limits, n: F.Net,
                        links: Links, q: Contents) returns (i: nat, j: nat)
    requires Simulates(vs, nodes, next, max, n) && n.waiting != [] && Holds(vs, links, q)
    ensures i in Topology(vs).nodes && (i, j) in q && q[(i, j)] != []
  {
    i, j := n.waiting[0].at, n.waiting[0].to;
    WaitsAtAnEdge(vs, nodes, next, max, n);
    OldestIsQueued(n.waiting);
    hide Ready, AllValid, Addressed, F.Good, F.Queue, Topology;
    assert PacketsAt(vs, i, j) == PacketsOf(F.Queue(n.waiting, i, j));
  }

  lemma {:induction false} OldestIsQueued(ws: seq<F.Waiting>)
    requires ws != []
    ensures F.Queue(ws, ws[0].at, ws[0].to) != []
  {
    if |ws| > 1 {
      OldestIsQueued(ws[..|ws| - 1]);
    }
  }

  lemma WaitsAtAnEdge(vs: seq<Router?>, nodes: map<(nat, nat), nat>, next: Tables, max: F.Limits, n: F.Net)
    requires Simulates(vs, nodes, next, max, n) && n.waiting != []
    ensures Edge(vs, n.waiting[0].at, n.waiting[0].to) && n.waiting[0].at in Topology(vs).nodes
  {
    RoutedNow(vs, nodes, next, max, n);
    TopologyIsWellFormed(vs);
    hide Ready, AllValid, Shows, Addressed, Topology;
    F.WaitsOnAnEdge(Topology(vs), next, max, n, 0);
  }

  /**
    Under a clock that never falls a packet has been delivered no earlier than it came in
    plus latency and transmission for every link on its way.
   */
  lemma NothingIsEarly(vs: seq<Router?>, n: F.Net, links: Links, q: Contents, clock: nat -> real, c: nat, i: nat)
    requires NeverFalls(clock) && Timed(vs, n, links, q, clock, c) && i < |n.delivered|
    ensures var t := n.delivered[i]; clock(c) >= t.since + TravelTime(links, t.path, t.packet.length)
  {
    hide NeverFalls, InTime, TravelTime, Holds;
  }

  lemma ReachedIs(g: Graph, next: Tables, max: F.Limits, es: seq<F.Step>, n: F.Net)
    requires Reached(g, next, max, es, n)
    ensures F.CanTake(g, F.EMPTY, next, max, es) && n == F.After(F.EMPTY, next, max, es)
  {
  }
}
