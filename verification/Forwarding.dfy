/**
  Packets on their way through the queues of all routers, hupsim.pl, over whole runs:
  packets come in anywhere, queues release their heads in any order, and full queues drop.
 */
module Forwarding {
  import opened Paths

  /** The fields of the header that routing looks at, and the length of the whole packet. */
  datatype Packet = Packet(destIp: nat, destPort: nat, length: nat)

  /** A packet for router dest that came in at the time since, and has come along path. */
  datatype Trip = Trip(packet: Packet, dest: nat, since: real, path: seq<nat>)

  /** A trip waiting in the queue of router at for router to. */
  datatype Waiting = Waiting(at: nat, to: nat, trip: Trip)

  /** Everything waiting anywhere, oldest first, and what has become of the rest. */
  datatype Net = Net(waiting: seq<Waiting>, delivered: seq<Trip>, dropped: seq<Trip>, died: bool)

  const EMPTY := Net([], [], [], false)

  type Limits = map<(nat, nat), nat>

  /** The queue of router x for router f. */
  function Queue(ws: seq<Waiting>, x: nat, f: nat): (q: seq<Trip>)
    ensures |q| <= |ws|
  {
    if ws == [] then []
    else
      var w := ws[|ws| - 1];
      Queue(ws[..|ws| - 1], x, f) + if w.at == x && w.to == f then [w.trip] else []
  }

  /** recv of router x, together with getQ and enQ: t is delivered, dropped or queued. */
  function Arrive(n: Net, next: Tables, max: Limits, x: nat, t: Trip): Net {
    if x == t.dest then n.(delivered := n.delivered + [t])
    else if x !in next || t.dest !in next[x] || (x, next[x][t.dest]) !in max then n.(died := true)
    else
      var f := next[x][t.dest];
      if |Queue(n.waiting, x, f)| >= max[(x, f)] then n.(dropped := n.dropped + [t])
      else n.(waiting := n.waiting + [Waiting(x, f, t)])
  }

  datatype Step =
    | Inject(r: nat, packet: Packet, dest: nat, since: real)   // a packet from outside
    | Release(i: nat)                                          // the head of a queue moves on

  function Without(ws: seq<Waiting>, i: nat): seq<Waiting>
    requires i < |ws|
  {
    ws[..i] + ws[i + 1..]
  }

  /** Nothing older waits in the same queue. */
  predicate IsHead(ws: seq<Waiting>, i: nat) {
    i < |ws| && forall j :: 0 <= j < i ==> !(ws[j].at == ws[i].at && ws[j].to == ws[i].to)
  }

  predicate Enabled(g: Graph, n: Net, e: Step) {
    match e
    case Inject(r, _, dest, _) => r in g.nodes && dest in g.nodes
    case Release(i) => IsHead(n.waiting, i)
  }

  function Moved(w: Waiting): Trip {
    w.trip.(path := w.trip.path + [w.to])
  }

  function Apply(n: Net, next: Tables, max: Limits, e: Step): Net {
    match e
    case Inject(r, packet, dest, since) => Arrive(n, next, max, r, Trip(packet, dest, since, [r]))
    case Release(i) =>
      if i < |n.waiting| then
        Arrive(n.(waiting := Without(n.waiting, i)), next, max, n.waiting[i].to, Moved(n.waiting[i]))
      else n
  }

  lemma QueueOfAppend(ws: seq<Waiting>, w: Waiting, x: nat, f: nat)
    ensures Queue(ws + [w], x, f) == Queue(ws, x, f) + if w.at == x && w.to == f then [w.trip] else []
  {
    assert (ws + [w])[..|ws|] == ws;
  }

  /** Taking out the head of a queue leaves the rest of it, and all other queues, as they are. */
  lemma {:induction false} QueueOfWithout(ws: seq<Waiting>, i: nat, x: nat, f: nat)
    requires IsHead(ws, i)
    ensures Queue(ws, x, f) ==
            (if ws[i].at == x && ws[i].to == f then [ws[i].trip] else []) + Queue(Without(ws, i), x, f)
  {
    hide Queue, IsHead;
    HeadIsInside(ws, i);
    var front, last := ws[..|ws| - 1], ws[|ws| - 1];
    assert ws == front + [last];
    QueueOfAppend(front, last, x, f);
    if i == |ws| - 1 {
      NothingBeforeTheHead(ws, i, i);
      assert Without(ws, i) == front == ws[..i];
    } else {
      HeadOfFront(ws, i);
      QueueOfWithout(front, i, x, f);
      assert Without(ws, i) == Without(front, i) + [last];
      QueueOfAppend(Without(front, i), last, x, f);
    }
  }

  lemma HeadIsInside(ws: seq<Waiting>, i: nat)
    requires IsHead(ws, i)
    ensures i < |ws|
  {
  }

  lemma HeadOfFront(ws: seq<Waiting>, i: nat)
    requires IsHead(ws, i) && i < |ws| - 1
    ensures IsHead(ws[..|ws| - 1], i)
  {
  }

  lemma {:induction false} NothingBeforeTheHead(ws: seq<Waiting>, i: nat, k: nat)
    requires IsHead(ws, i) && k <= i
    ensures Queue(ws[..k], ws[i].at, ws[i].to) == []
  {
    if k > 0 {
      NothingBeforeTheHead(ws, i, k - 1);
      assert ws[..k][..k - 1] == ws[..k - 1];
    }
  }

  lemma {:induction false} HeadOf(ws: seq<Waiting>, x: nat, f: nat) returns (i: nat)
    requires Queue(ws, x, f) != []
    ensures IsHead(ws, i) && ws[i].at == x && ws[i].to == f && ws[i].trip == Queue(ws, x, f)[0]
  {
    var front := ws[..|ws| - 1];
    if Queue(front, x, f) == [] {
      i := |ws| - 1;
      EmptyQueue(front, x, f);
    } else {
      i := HeadOf(front, x, f);
    }
  }

  lemma {:induction false} EmptyQueue(ws: seq<Waiting>, x: nat, f: nat)
    requires Queue(ws, x, f) == []
    ensures forall j :: 0 <= j < |ws| ==> !(ws[j].at == x && ws[j].to == f)
  {
    if ws != [] {
      EmptyQueue(ws[..|ws| - 1], x, f);
    }
  }

  /** The packets delivered by router r, in order. */
  function DeliveredBy(ts: seq<Trip>, r: nat): seq<Packet> {
    if ts == [] then []
    else DeliveredBy(ts[..|ts| - 1], r) + if ts[|ts| - 1].dest == r then [ts[|ts| - 1].packet] else []
  }

  lemma {:induction false} DeliveredFrom(ts: seq<Trip>, r: nat, p: Packet) returns (i: nat)
    requires p in DeliveredBy(ts, r)
    ensures i < |ts| && ts[i].packet == p && ts[i].dest == r
  {
    var front := ts[..|ts| - 1];
    if p in DeliveredBy(front, r) {
      i := DeliveredFrom(front, r, p);
    } else {
      i := |ts| - 1;
    }
  }

  lemma DeliveredByAppend(ts: seq<Trip>, t: Trip, r: nat)
    ensures DeliveredBy(ts + [t], r) == DeliveredBy(ts, r) + if t.dest == r then [t.packet] else []
  {
    assert (ts + [t])[..|ts|] == ts;
  }

  // ---------------------------------------------------------------- where packets come from

  /** A packet for router dest that has come in at router r, and when. */
  datatype Entry = Entry(r: nat, packet: Packet, dest: nat, since: real)

  function Origin(t: Trip): Entry {
    Entry(if t.path == [] then 0 else t.path[0], t.packet, t.dest, t.since)
  }

  function Origins(ts: seq<Trip>): multiset<Entry> {
    if ts == [] then multiset{} else Origins(ts[..|ts| - 1]) + multiset{Origin(ts[|ts| - 1])}
  }

  function Trips(ws: seq<Waiting>): (ts: seq<Trip>)
    ensures |ts| == |ws| && forall i :: 0 <= i < |ws| ==> ts[i] == ws[i].trip
  {
    seq(|ws|, i requires 0 <= i < |ws| => ws[i].trip)
  }

  /** Everything that is waiting, delivered or dropped. */
  function Everything(n: Net): multiset<Entry> {
    Origins(Trips(n.waiting)) + Origins(n.delivered) + Origins(n.dropped)
  }

  lemma OriginsOfAppend(ts: seq<Trip>, t: Trip)
    ensures Origins(ts + [t]) == Origins(ts) + multiset{Origin(t)}
  {
    assert (ts + [t])[..|ts|] == ts;
  }

  lemma {:induction false} OriginsWithout(ts: seq<Trip>, i: nat)
    requires i < |ts|
    ensures Origins(ts[..i] + ts[i + 1..]) + multiset{Origin(ts[i])} == Origins(ts)
  {
    hide Origin, Origins;
    var front, last := ts[..|ts| - 1], ts[|ts| - 1];
    assert ts == front + [last];
    OriginsOfAppend(front, last);
    if i == |ts| - 1 {
      assert ts[..i] + ts[i + 1..] == front;
    } else {
      OriginsWithout(front, i);
      assert ts[..i] + ts[i + 1..] == front[..i] + front[i + 1..] + [last];
      OriginsOfAppend(front[..i] + front[i + 1..], last);
    }
  }

  lemma {:induction false} OriginsHas(ts: seq<Trip>)
    ensures |Origins(ts)| == |ts| && forall i :: 0 <= i < |ts| ==> Origin(ts[i]) in Origins(ts)
  {
    hide Origin;
    if ts != [] {
      OriginsHas(ts[..|ts| - 1]);
    }
  }

  lemma EverythingHas(n: Net)
    ensures |Everything(n)| == |n.waiting| + |n.delivered| + |n.dropped|
    ensures forall i :: 0 <= i < |n.delivered| ==> Origin(n.delivered[i]) in Everything(n)
    ensures forall i :: 0 <= i < |n.waiting| ==> Origin(n.waiting[i].trip) in Everything(n)
  {
    hide Origin, Origins, Trips;
    OriginsHas(Trips(n.waiting));
    OriginsHas(n.delivered);
    OriginsHas(n.dropped);
  }

  lemma ArriveAccounts(next: Tables, max: Limits, n: Net, x: nat, t: Trip)
    requires !Arrive(n, next, max, x, t).died
    ensures Everything(Arrive(n, next, max, x, t)) == Everything(n) + multiset{Origin(t)}
  {
    hide Origin, Origins, Queue;
    OriginsOfAppend(n.delivered, t);
    OriginsOfAppend(n.dropped, t);
    OriginsOfAppend(Trips(n.waiting), t);
    assert forall f :: Trips(n.waiting + [Waiting(x, f, t)]) == Trips(n.waiting) + [t];
  }

  lemma WithoutAccounts(n: Net, i: nat)
    requires i < |n.waiting|
    ensures Everything(n.(waiting := Without(n.waiting, i))) + multiset{Origin(n.waiting[i].trip)} == Everything(n)
  {
    hide Origin, Origins;
    var ts := Trips(n.waiting);
    OriginsWithout(ts, i);
    assert Trips(Without(n.waiting, i)) == ts[..i] + ts[i + 1..];
  }

  // ---------------------------------------------------------------- distances

  /** The hop distance; zero where there is none, which connected topologies rule out. */
  ghost function Dist(g: Graph, u: nat, v: nat): nat {
    if d: nat :| IsDistance(g, u, v, d) then d else 0
  }

  lemma DistIs(g: Graph, u: nat, v: nat)
    requires Connected(g) && u in g.nodes && v in g.nodes
    ensures IsDistance(g, u, v, Dist(g, u, v))
    ensures Dist(g, u, v) == 0 <==> u == v
  {
    var p :| Walks(g, u, v, p);
    ConnectedHasDistance(g, u, v, p);
    DistanceToSelf(g, u, v, Dist(g, u, v));
  }

  /** A table entry leads one hop nearer. */
  lemma NextIsNearer(g: Graph, next: Tables, x: nat, v: nat)
    requires WellFormed(g) && Connected(g) && TablesRight(g, next) && x in g.nodes && v in g.nodes && x != v
    ensures x in next && v in next[x] && next[x][v] in g.nodes && (x, next[x][v]) in g.edges
    ensures Dist(g, x, v) == Dist(g, next[x][v], v) + 1
  {
    hide Connected, TablesRight, IsFirstHop, IsDistance, WellFormed, Dist;
    DistIs(g, x, v);
    TableEntry(g, next, x, v);
    var f := next[x][v];
    FirstHopIsNearer(g, x, v, f, Dist(g, x, v));
    DistIs(g, f, v);
    DistanceIsUnique(g, f, v, Dist(g, f, v), Dist(g, x, v) - 1);
  }

  // ---------------------------------------------------------------- the invariant

  /** t has come from path[0] to x, one hop nearer to its destination at every router. */
  ghost predicate Travels(g: Graph, t: Trip, x: nat) {
    && t.dest in g.nodes && t.path != [] && Walks(g, t.path[0], x, t.path)
    && forall i :: 0 <= i < |t.path| ==>
        t.path[i] in g.nodes && Dist(g, t.path[i], t.dest) + i == Dist(g, t.path[0], t.dest)
  }

  /** t waits in the queue its router's table names. */
  ghost predicate WellPlaced(g: Graph, next: Tables, w: Waiting) {
    && Travels(g, w.trip, w.at) && w.at != w.trip.dest
    && w.at in next && w.trip.dest in next[w.at] && w.to == next[w.at][w.trip.dest]
  }

  ghost predicate Good(g: Graph, next: Tables, n: Net) {
    && !n.died
    && (forall i :: 0 <= i < |n.waiting| ==> WellPlaced(g, next, n.waiting[i]))
    && (forall i :: 0 <= i < |n.delivered| ==> Travels(g, n.delivered[i], n.delivered[i].dest))
  }

  /** A connected topology, right tables and a limit for every queue. */
  ghost predicate Routed(g: Graph, next: Tables, max: Limits) {
    WellFormed(g) && Connected(g) && TablesRight(g, next) && max.Keys == g.edges
  }

  lemma TravelBegins(g: Graph, packet: Packet, dest: nat, since: real, r: nat)
    requires r in g.nodes && dest in g.nodes
    ensures Travels(g, Trip(packet, dest, since, [r]), r)
  {
  }

  lemma TravelGoesOn(g: Graph, next: Tables, w: Waiting)
    requires WellFormed(g) && Connected(g) && TablesRight(g, next) && WellPlaced(g, next, w)
    ensures w.to in g.nodes && w.at in g.nodes && Dist(g, w.at, w.trip.dest) == Dist(g, w.to, w.trip.dest) + 1
    ensures Travels(g, Moved(w), w.to)
  {
    hide Connected, TablesRight, WellFormed, Dist;
    var t, m := w.trip, Moved(w);
    assert w.at == t.path[|t.path| - 1] && w.at in g.nodes;
    NextIsNearer(g, next, w.at, t.dest);
    WalkThenStep(g, t.path[0], w.at, w.to, t.path);
    forall i | 0 <= i < |m.path|
      ensures m.path[i] in g.nodes && Dist(g, m.path[i], t.dest) + i == Dist(g, m.path[0], t.dest)
    {
      if i < |t.path| {
        assert m.path[i] == t.path[i];
      } else {
        assert Dist(g, t.path[i - 1], t.dest) + (i - 1) == Dist(g, t.path[0], t.dest);
      }
    }
  }

  /** Arriving packets are delivered, queued where they belong, or dropped; never does a router look in vain. */
  lemma ArriveKeeps(g: Graph, next: Tables, max: Limits, n: Net, x: nat, t: Trip)
    requires Routed(g, next, max) && Good(g, next, n) && x in g.nodes && Travels(g, t, x)
    ensures Good(g, next, Arrive(n, next, max, x, t))
  {
    hide Connected, TablesRight, WellFormed, Travels, Queue;
    if x != t.dest {
      TravelsInside(g, t, x);
      NextIsNearer(g, next, x, t.dest);
    }
  }

  lemma TravelsInside(g: Graph, t: Trip, x: nat)
    requires Travels(g, t, x)
    ensures t.dest in g.nodes && x in g.nodes
  {
    assert x == t.path[|t.path| - 1];
  }

  lemma StepKeeps(g: Graph, next: Tables, max: Limits, n: Net, e: Step)
    requires Routed(g, next, max) && Good(g, next, n) && Enabled(g, n, e)
    ensures Good(g, next, Apply(n, next, max, e))
  {
    hide Connected, TablesRight, WellFormed, WellPlaced, Travels, Arrive;
    match e
    case Inject(r, packet, dest, since) =>
      TravelBegins(g, packet, dest, since, r);
      ArriveKeeps(g, next, max, n, r, Trip(packet, dest, since, [r]));
    case Release(i) =>
      var w := n.waiting[i];
      TravelGoesOn(g, next, w);
      ArriveKeeps(g, next, max, n.(waiting := Without(n.waiting, i)), w.to, Moved(w));
  }

  // ---------------------------------------------------------------- hops left

  /** The hops everything waiting still has before it. */
  ghost function HopsLeft(g: Graph, ws: seq<Waiting>): nat {
    if ws == [] then 0
    else
      var w := ws[|ws| - 1];
      HopsLeft(g, ws[..|ws| - 1]) + Dist(g, w.at, w.trip.dest)
  }

  lemma {:induction false} HopsLeftWithout(g: Graph, ws: seq<Waiting>, i: nat)
    requires i < |ws|
    ensures HopsLeft(g, Without(ws, i)) == HopsLeft(g, ws) - Dist(g, ws[i].at, ws[i].trip.dest)
  {
    hide Dist;
    var front, last := ws[..|ws| - 1], ws[|ws| - 1];
    if i == |ws| - 1 {
      assert Without(ws, i) == front;
    } else {
      HopsLeftWithout(g, front, i);
      assert Without(ws, i)[..|ws| - 2] == Without(front, i);
      assert Without(ws, i)[|ws| - 2] == last;
    }
  }

  /** A packet that arrives adds no more than its own distance. */
  lemma ArriveAddsItsDistance(g: Graph, next: Tables, max: Limits, n: Net, x: nat, t: Trip)
    ensures HopsLeft(g, Arrive(n, next, max, x, t).waiting) <= HopsLeft(g, n.waiting) + Dist(g, x, t.dest)
  {
    hide Dist, Queue;
    if !(x == t.dest || x !in next || t.dest !in next[x]) {
      var f := next[x][t.dest];
      assert (n.waiting + [Waiting(x, f, t)])[..|n.waiting|] == n.waiting;
    }
  }

  /** Every release uses up a hop. */
  lemma ReleaseUsesAHop(g: Graph, next: Tables, max: Limits, n: Net, i: nat)
    requires Routed(g, next, max) && Good(g, next, n) && i < |n.waiting|
    ensures HopsLeft(g, Apply(n, next, max, Release(i)).waiting) < HopsLeft(g, n.waiting)
  {
    hide Connected, TablesRight, WellFormed, WellPlaced, Travels, Arrive, Dist, HopsLeft;
    var w := n.waiting[i];
    TravelGoesOn(g, next, w);
    HopsLeftWithout(g, n.waiting, i);
    ArriveAddsItsDistance(g, next, max, n.(waiting := Without(n.waiting, i)), w.to, Moved(w));
  }

  // ---------------------------------------------------------------- runs

  ghost function After(n: Net, next: Tables, max: Limits, es: seq<Step>): Net {
    if es == [] then n else Apply(After(n, next, max, es[..|es| - 1]), next, max, es[|es| - 1])
  }

  ghost predicate CanTake(g: Graph, n: Net, next: Tables, max: Limits, es: seq<Step>) {
    es == [] || (CanTake(g, n, next, max, es[..|es| - 1])
                 && Enabled(g, After(n, next, max, es[..|es| - 1]), es[|es| - 1]))
  }

  lemma OneMoreStep(g: Graph, n: Net, next: Tables, max: Limits, es: seq<Step>, e: Step)
    ensures After(n, next, max, es + [e]) == Apply(After(n, next, max, es), next, max, e)
    ensures CanTake(g, n, next, max, es) && Enabled(g, After(n, next, max, es), e) ==>
            CanTake(g, n, next, max, es + [e])
  {
    assert (es + [e])[..|es|] == es;
  }

  lemma {:induction false} RunsJoin(g: Graph, n: Net, next: Tables, max: Limits, es: seq<Step>, fs: seq<Step>)
    requires CanTake(g, n, next, max, es) && CanTake(g, After(n, next, max, es), next, max, fs)
    ensures CanTake(g, n, next, max, es + fs)
    ensures After(n, next, max, es + fs) == After(After(n, next, max, es), next, max, fs)
    decreases |fs|
  {
    hide Enabled, Apply;
    if fs == [] {
      assert es + fs == es;
    } else {
      var front, f := fs[..|fs| - 1], fs[|fs| - 1];
      RunsJoin(g, n, next, max, es, front);
      assert es + fs == (es + front) + [f];
      OneMoreStep(g, n, next, max, es + front, f);
    }
  }

  /** The packets injected in a run, in order. */
  function Entries(es: seq<Step>): seq<Entry> {
    if es == [] then []
    else
      Entries(es[..|es| - 1]) +
      match es[|es| - 1]
      case Inject(r, packet, dest, since) => [Entry(r, packet, dest, since)]
      case Release(_) => []
  }

  lemma {:induction false} RunKeeps(g: Graph, next: Tables, max: Limits, n: Net, es: seq<Step>)
    requires Routed(g, next, max) && Good(g, next, n) && CanTake(g, n, next, max, es)
    ensures Good(g, next, After(n, next, max, es))
  {
    hide Routed, Good, Apply;
    if es != [] {
      RunKeeps(g, next, max, n, es[..|es| - 1]);
      StepKeeps(g, next, max, After(n, next, max, es[..|es| - 1]), es[|es| - 1]);
    }
  }

  /** No queue leads back to its own router. */
  lemma WaitsForAnother(g: Graph, next: Tables, max: Limits, n: Net, i: nat)
    requires Routed(g, next, max) && Good(g, next, n) && i < |n.waiting|
    ensures n.waiting[i].at != n.waiting[i].to
  {
    hide Connected, TablesRight, WellFormed, Dist, Travels;
    assert WellPlaced(g, next, n.waiting[i]);
    TravelGoesOn(g, next, n.waiting[i]);
  }

  lemma WaitsOnAnEdge(g: Graph, next: Tables, max: Limits, n: Net, i: nat)
    requires Routed(g, next, max) && Good(g, next, n) && i < |n.waiting|
    ensures n.waiting[i].at in g.nodes && (n.waiting[i].at, n.waiting[i].to) in g.edges
  {
    hide Connected, TablesRight, WellFormed, Dist;
    var w := n.waiting[i];
    assert WellPlaced(g, next, w);
    TravelGoesOn(g, next, w);
    NextIsNearer(g, next, w.at, w.trip.dest);
  }

  lemma MovedKeepsOrigin(g: Graph, next: Tables, n: Net, i: nat)
    requires Good(g, next, n) && i < |n.waiting|
    ensures Origin(Moved(n.waiting[i])) == Origin(n.waiting[i].trip)
  {
    assert WellPlaced(g, next, n.waiting[i]);
  }

  lemma ReleaseAccounts(g: Graph, next: Tables, max: Limits, n: Net, i: nat)
    requires Good(g, next, n) && i < |n.waiting| && !Apply(n, next, max, Release(i)).died
    ensures Everything(Apply(n, next, max, Release(i))) == Everything(n)
  {
    hide Good, Arrive, Everything, Origin, Without, Moved;
    MovedKeepsOrigin(g, next, n, i);
    WithoutAccounts(n, i);
    ArriveAccounts(next, max, n.(waiting := Without(n.waiting, i)), n.waiting[i].to, Moved(n.waiting[i]));
  }

  /** A step adds what it injects and loses nothing. */
  lemma StepAccounts(g: Graph, next: Tables, max: Limits, n: Net, e: Step)
    requires Good(g, next, n) && Enabled(g, n, e) && !Apply(n, next, max, e).died
    ensures Everything(Apply(n, next, max, e)) == Everything(n) + multiset(Entries([e]))
  {
    hide Good, Arrive, Everything, Without, Moved;
    assert [e][..0] == [];
    match e
    case Inject(r, packet, dest, since) =>
      ArriveAccounts(next, max, n, r, Trip(packet, dest, since, [r]));
    case Release(i) =>
      ReleaseAccounts(g, next, max, n, i);
  }

  lemma EntriesOfAppend(es: seq<Step>, e: Step)
    ensures Entries(es + [e]) == Entries(es) + Entries([e])
  {
    assert (es + [e])[..|es|] == es && [e][..0] == [];
  }

  /**
    Nothing vanishes and nothing is made up: the packets that are waiting, delivered or
    dropped, each with the router it came in at and the one it is for, are exactly those
    injected, and no router has died.
   */
  lemma {:induction false} NothingVanishes(g: Graph, next: Tables, max: Limits, es: seq<Step>)
    requires Routed(g, next, max) && CanTake(g, EMPTY, next, max, es)
    ensures var n := After(EMPTY, next, max, es);
            !n.died && Everything(n) == multiset(Entries(es))
  {
    hide Routed, Apply, Enabled, Everything, Entries;
    assert Good(g, next, EMPTY);
    RunKeeps(g, next, max, EMPTY, es);
    if es == [] {
      NothingYet();
    } else {
      var front, e := es[..|es| - 1], es[|es| - 1];
      assert es == front + [e];
      EntriesOfAppend(front, e);
      RunKeeps(g, next, max, EMPTY, front);
      NothingVanishes(g, next, max, front);
      StepAccounts(g, next, max, After(EMPTY, next, max, front), e);
    }
  }

  lemma NothingYet()
    ensures Everything(EMPTY) == multiset{} && Entries([]) == []
  {
  }

  /**
    Whatever is injected where and released when: a delivered packet has taken exactly as
    many hops as its distance from the router where it was injected, over edges of the
    topology, and has met no router twice.  One still waiting has come along a shortest
    path so far.
   */
  lemma DeliveredByShortestPath(g: Graph, next: Tables, max: Limits, es: seq<Step>)
    requires Routed(g, next, max) && CanTake(g, EMPTY, next, max, es)
    ensures var n := After(EMPTY, next, max, es);
            && (forall i :: 0 <= i < |n.delivered| ==>
                  Shortest(g, n.delivered[i], n.delivered[i].dest, 0) && Origin(n.delivered[i]) in Entries(es))
            && (forall i :: 0 <= i < |n.waiting| ==>
                  var w := n.waiting[i];
                  Shortest(g, w.trip, w.at, Dist(g, w.at, w.trip.dest)) && Origin(w.trip) in Entries(es))
  {
    hide Routed, After, CanTake, Entries;
    NothingVanishes(g, next, max, es);
    EverythingHas(After(EMPTY, next, max, es));
    hide Everything, Origin;
    assert Good(g, next, EMPTY);
    RunKeeps(g, next, max, EMPTY, es);
    var n := After(EMPTY, next, max, es);
    assert Routed(g, next, max) && Connected(g) by {
      RoutedIsConnected(g, next, max);
    }
    hide Connected, Travels, Shortest, Dist;
    forall i | 0 <= i < |n.delivered|
      ensures Shortest(g, n.delivered[i], n.delivered[i].dest, 0)
    {
      TravelsShortest(g, n.delivered[i], n.delivered[i].dest);
      TravelsInside(g, n.delivered[i], n.delivered[i].dest);
      DistIs(g, n.delivered[i].dest, n.delivered[i].dest);
    }
    forall i | 0 <= i < |n.waiting|
      ensures Shortest(g, n.waiting[i].trip, n.waiting[i].at, Dist(g, n.waiting[i].at, n.waiting[i].trip.dest))
    {
      assert WellPlaced(g, next, n.waiting[i]);
      TravelsShortest(g, n.waiting[i].trip, n.waiting[i].at);
    }
  }

  /** What a router delivers came in as a packet for it. */
  lemma DeliveredCameIn(g: Graph, next: Tables, max: Limits, es: seq<Step>, x: nat, p: Packet)
    requires Routed(g, next, max) && CanTake(g, EMPTY, next, max, es)
    requires p in DeliveredBy(After(EMPTY, next, max, es).delivered, x)
    ensures exists r: nat, since: real :: Entry(r, p, x, since) in Entries(es)
  {
    hide Routed, CanTake, After, Entries, Shortest, DeliveredBy;
    DeliveredByShortestPath(g, next, max, es);
    var n := After(EMPTY, next, max, es);
    var i := DeliveredFrom(n.delivered, x, p);
    assert Entry(Origin(n.delivered[i]).r, p, x, n.delivered[i].since) in Entries(es);
  }

  lemma RoutedIsConnected(g: Graph, next: Tables, max: Limits)
    requires Routed(g, next, max)
    ensures Connected(g)
  {
  }

  /** t has reached x by a walk without repetition that leaves exactly rest hops of the distance. */
  ghost predicate Shortest(g: Graph, t: Trip, x: nat, rest: nat) {
    && t.path != [] && Walks(g, t.path[0], x, t.path) && IsDistance(g, t.path[0], t.dest, |t.path| - 1 + rest)
    && forall i, j :: 0 <= i < j < |t.path| ==> t.path[i] != t.path[j]
  }

  lemma TravelsShortest(g: Graph, t: Trip, x: nat)
    requires Connected(g) && Travels(g, t, x)
    ensures Shortest(g, t, x, Dist(g, x, t.dest))
  {
    assert t.path[0] in g.nodes;
    DistIs(g, t.path[0], t.dest);
    hide Dist, IsDistance, Connected;
    assert Dist(g, t.path[|t.path| - 1], t.dest) + (|t.path| - 1) == Dist(g, t.path[0], t.dest);
    forall i, j | 0 <= i < j < |t.path|
      ensures t.path[i] != t.path[j]
    {
      assert Dist(g, t.path[i], t.dest) + i == Dist(g, t.path[j], t.dest) + j;
    }
  }

  ghost predicate OnlyReleases(es: seq<Step>) {
    forall k :: 0 <= k < |es| ==> es[k].Release?
  }

  /**
    The queues run empty: without new packets there are at most as many releases as hops
    left, and as long as anything waits another release is possible.
   */
  lemma {:induction false} QueuesRunEmpty(g: Graph, next: Tables, max: Limits, n: Net, es: seq<Step>)
    requires Routed(g, next, max) && Good(g, next, n) && CanTake(g, n, next, max, es) && OnlyReleases(es)
    ensures var m := After(n, next, max, es);
            && |es| + HopsLeft(g, m.waiting) <= HopsLeft(g, n.waiting)
            && (m.waiting != [] ==> Enabled(g, m, Release(0)))
  {
    hide Routed, Good, Apply, HopsLeft;
    if es != [] {
      var front := es[..|es| - 1];
      QueuesRunEmpty(g, next, max, n, front);
      RunKeeps(g, next, max, n, front);
      ReleaseUsesAHop(g, next, max, After(n, next, max, front), es[|es| - 1].i);
    }
  }

  /** With no more packets than the smallest queue holds, none is dropped. */
  lemma {:induction false} NothingDroppedWithinLimits(g: Graph, next: Tables, max: Limits, es: seq<Step>, least: nat)
    requires Routed(g, next, max) && CanTake(g, EMPTY, next, max, es)
    requires |Entries(es)| <= least && forall e :: e in max ==> least <= max[e]
    ensures After(EMPTY, next, max, es).dropped == []
  {
    hide Routed, Enabled, Apply, Everything;
    if es != [] {
      var front, e := es[..|es| - 1], es[|es| - 1];
      NothingDroppedWithinLimits(g, next, max, front, least);
      NothingVanishes(g, next, max, front);
      EverythingHas(After(EMPTY, next, max, front));
      hide Origins, Trips;
      StepDropsNothing(g, next, max, After(EMPTY, next, max, front), e, least);
    }
  }

  lemma StepDropsNothing(g: Graph, next: Tables, max: Limits, n: Net, e: Step, least: nat)
    requires Enabled(g, n, e) && n.dropped == [] && forall e :: e in max ==> least <= max[e]
    requires |n.waiting| + (if e.Inject? then 1 else 0) <= least
    ensures Apply(n, next, max, e).dropped == []
  {
  }
}
