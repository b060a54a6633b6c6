/**
  When packets leave the queues of hupsim.pl: the contents of all queues with their due
  times beside the packets of module Forwarding.
 */
module Timing {
  import opened Common
  import opened Paths
  import opened Routers
  import opened MapFile
  import F = Forwarding

  type Links = map<(nat, nat), Link>

  /** What all the queues hold. */
  type Contents = map<(nat, nat), seq<Entry>>

  /** The queues after a packet on trip t has come to router x at vtime. */
  function Arrived(c: Contents, links: Links, next: Tables, x: nat, t: F.Trip, vtime: real): (d: Contents)
    ensures d.Keys == c.Keys
  {
    if x == t.dest || x !in next || t.dest !in next[x] then c
    else
      var e := (x, next[x][t.dest]);
      if e !in links || e !in c then c
      else c[e := After(c[e], links[e], t.packet, vtime)]
  }

  /** A queue with these entries after a packet has come to it. */
  function After(q: seq<Entry>, l: Link, p: Packet, vtime: real): seq<Entry> {
    Joined(q, l.max, l.latency, l.rate, p, vtime)
  }

  // ---------------------------------------------------------------- bursts

  function Bytes(ps: seq<Packet>): nat {
    if ps == [] then 0 else Bytes(ps[..|ps| - 1]) + ps[|ps| - 1].length
  }

  /** The bytes of the packets up to and including number i. */
  function BytesThrough(ps: seq<Packet>, i: nat): nat
    requires i < |ps|
  {
    Bytes(ps[..i + 1])
  }

  /** A queue after packets have come to it one after the other at the same time. */
  function JoinedAll(queue: seq<Entry>, l: Link, ps: seq<Packet>, vtime: real): seq<Entry> {
    if ps == [] then queue
    else After(JoinedAll(queue, l, ps[..|ps| - 1], vtime), l, ps[|ps| - 1], vtime)
  }

  /** q is what the first packets of a burst have become, and each is due when all up to it have been sent. */
  ghost predicate InLine(q: seq<Entry>, l: Link, ps: seq<Packet>, vtime: real) {
    && l.rate > 0 && |q| == Min(|ps|, l.max) && TotalLength(q) == Bytes(ps[..|q|])
    && forall i :: 0 <= i < |q| ==>
         q[i].pkt == ps[i] && q[i].due == vtime + l.latency + BytesThrough(ps, i) as real / l.rate as real
  }

  lemma OneMoreInLine(q: seq<Entry>, l: Link, ps: seq<Packet>, vtime: real)
    requires l.rate > 0 && ps != [] && InLine(q, l, ps[..|ps| - 1], vtime) && |q| < l.max
    ensures InLine(After(q, l, ps[|ps| - 1], vtime), l, ps, vtime)
  {
    hide TotalLength, Bytes, BytesThrough;
    var front, p := ps[..|ps| - 1], ps[|ps| - 1];
    assert front[..|q|] == front && ps[..|ps|] == ps;
    OneMorePacket(ps);
    TotalLengthOfAppend(q, Entry(p, Due(l.latency, l.rate, TotalLength(q), p.length, vtime)));
    forall i | 0 <= i < |q|
      ensures BytesThrough(front, i) == BytesThrough(ps, i)
    {
      EarlierBytes(ps, i);
    }
  }

  lemma OneMorePacket(ps: seq<Packet>)
    requires ps != []
    ensures Bytes(ps) == BytesThrough(ps, |ps| - 1) == Bytes(ps[..|ps| - 1]) + ps[|ps| - 1].length
  {
    assert ps[..|ps| - 1 + 1] == ps;
  }

  lemma EarlierBytes(ps: seq<Packet>, i: nat)
    requires i < |ps| - 1
    ensures BytesThrough(ps[..|ps| - 1], i) == BytesThrough(ps, i)
  {
    hide Bytes;
    assert ps[..|ps| - 1][..i + 1] == ps[..i + 1];
  }

  lemma NoMoreInLine(q: seq<Entry>, l: Link, ps: seq<Packet>, vtime: real)
    requires l.rate > 0 && ps != [] && InLine(q, l, ps[..|ps| - 1], vtime) && |q| == l.max
    ensures InLine(After(q, l, ps[|ps| - 1], vtime), l, ps, vtime)
  {
    hide TotalLength, Bytes, BytesThrough;
    assert ps[..|ps| - 1][..|q|] == ps[..|q|];
    forall i | 0 <= i < |q|
      ensures BytesThrough(ps[..|ps| - 1], i) == BytesThrough(ps, i)
    {
      EarlierBytes(ps, i);
    }
  }

  /**
    A burst leaves an idle link one packet after the other at the rate of the link: as many
    as the queue holds are kept, in order, and each is due when the latency and the
    transmission of everything up to and including it are over.
   */
  lemma {:induction false} BurstLeavesInLine(l: Link, ps: seq<Packet>, vtime: real)
    requires l.rate > 0
    ensures var q := JoinedAll([], l, ps, vtime);
            && |q| == Min(|ps|, l.max) && TotalLength(q) == Bytes(ps[..|q|])
            && forall i :: 0 <= i < |q| ==>
                 q[i].pkt == ps[i] && q[i].due == vtime + l.latency + BytesThrough(ps, i) as real / l.rate as real
  {
    if ps != [] {
      hide After, TotalLength, Bytes, BytesThrough;
      var front := ps[..|ps| - 1];
      BurstLeavesInLine(l, front, vtime);
      var q := JoinedAll([], l, front, vtime);
      if |q| < l.max {
        OneMoreInLine(q, l, ps, vtime);
      } else {
        NoMoreInLine(q, l, ps, vtime);
      }
    }
  }

  // ---------------------------------------------------------------- nothing is early

  /** The latency of a link and the transmission over it. */
  function HopTime(links: Links, e: (nat, nat), length: nat): real {
    if e in links && links[e].rate > 0 then links[e].latency + length as real / links[e].rate as real else 0.0
  }

  /** The least time a packet of this length takes along a path. */
  function TravelTime(links: Links, path: seq<nat>, length: nat): real {
    if |path| < 2 then 0.0
    else TravelTime(links, path[..|path| - 1], length) + HopTime(links, (path[|path| - 2], path[|path| - 1]), length)
  }

  /** When t can have come to the end of its path at the earliest. */
  function Earliest(links: Links, t: F.Trip): real {
    t.since + TravelTime(links, t.path, t.packet.length)
  }

  function Onward(t: F.Trip, to: nat): F.Trip {
    t.(path := t.path + [to])
  }

  lemma EarliestOnward(links: Links, t: F.Trip, to: nat)
    requires t.path != []
    ensures Earliest(links, Onward(t, to)) ==
            Earliest(links, t) + HopTime(links, (t.path[|t.path| - 1], to), t.packet.length)
  {
    assert (t.path + [to])[..|t.path|] == t.path;
  }

  /** The entries of a queue belong to these trips, and none is due before it can have reached the next router. */
  ghost predicate InTime(q: seq<Entry>, trips: seq<F.Trip>, links: Links, to: nat) {
    |q| == |trips| && forall i :: 0 <= i < |q| ==> Earliest(links, Onward(trips[i], to)) <= q[i].due
  }

  /** Nothing waiting will be, and nothing delivered by now has been, faster than its links. */
  ghost predicate OnTime(c: Contents, n: F.Net, links: Links, now: real) {
    && c.Keys == links.Keys
    && (forall i: nat, j: nat :: (i, j) in c ==> InTime(c[(i, j)], F.Queue(n.waiting, i, j), links, j))
    && forall i :: 0 <= i < |n.delivered| ==> Earliest(links, n.delivered[i]) <= now
  }

  lemma OnTimeLater(c: Contents, n: F.Net, links: Links, now: real, later: real)
    requires OnTime(c, n, links, now) && now <= later
    ensures OnTime(c, n, links, later)
  {
  }

  /** The limits are those of the links, and the links transmit. */
  ghost predicate Capacities(links: Links, max: F.Limits) {
    && max.Keys == links.Keys
    && forall i: nat, j: nat :: (i, j) in links ==> max[(i, j)] == links[(i, j)].max && links[(i, j)].rate > 0
  }

  /** A packet that joins a queue is due no earlier than latency and its own transmission allow. */
  lemma JoinedInTime(q: seq<Entry>, trips: seq<F.Trip>, links: Links, x: nat, f: nat, t: F.Trip, vtime: real)
    requires InTime(q, trips, links, f) && (x, f) in links && links[(x, f)].rate > 0
    requires t.path != [] && t.path[|t.path| - 1] == x && Earliest(links, t) <= vtime
    ensures var l := links[(x, f)];
            InTime(After(q, l, t.packet, vtime),
                   if |trips| >= l.max then trips else trips + [t], links, f)
  {
    hide Earliest, Due, TotalLength;
    var l := links[(x, f)];
    EarliestOnward(links, t, f);
    DueCoversTheHop(l.latency, l.rate, TotalLength(q), t.packet.length, vtime);
  }

  lemma DueCoversTheHop(latency: real, rate: nat, waiting: nat, length: nat, vtime: real)
    requires rate > 0
    ensures Due(latency, rate, waiting, length, vtime) >= vtime + (latency + length as real / rate as real)
  {
    DueInParts(waiting, length, rate);
  }

  lemma ArriveOnTime(c: Contents, n: F.Net, links: Links, next: Tables, max: F.Limits, x: nat, t: F.Trip, vtime: real)
    requires OnTime(c, n, links, vtime) && Capacities(links, max)
    requires t.path != [] && t.path[|t.path| - 1] == x && Earliest(links, t) <= vtime
    ensures OnTime(Arrived(c, links, next, x, t, vtime), F.Arrive(n, next, max, x, t), links, vtime)
  {
    hide InTime, Earliest, After;
    assert forall e: (nat, nat) :: e in max <==> e in max.Keys;
    assert forall e: (nat, nat) :: e in links <==> e in links.Keys;
    if x != t.dest && x in next && t.dest in next[x] && (x, next[x][t.dest]) in links {
      var f := next[x][t.dest];
      JoinedInTime(c[(x, f)], F.Queue(n.waiting, x, f), links, x, f, t, vtime);
      SameLength(c[(x, f)], F.Queue(n.waiting, x, f), links, f);
      hide F.Queue;
      forall i: nat, j: nat | (i, j) in c
        ensures F.Queue(n.waiting + [F.Waiting(x, f, t)], i, j) ==
                if i == x && j == f then F.Queue(n.waiting, i, j) + [t] else F.Queue(n.waiting, i, j)
      {
        F.QueueOfAppend(n.waiting, F.Waiting(x, f, t), i, j);
        assert F.Queue(n.waiting, i, j) + [] == F.Queue(n.waiting, i, j);
      }
    }
  }

  lemma SameLength(q: seq<Entry>, trips: seq<F.Trip>, links: Links, to: nat)
    requires InTime(q, trips, links, to)
    ensures |q| == |trips|
  {
  }

  /** The head of a queue that is due has had the time to reach the next router. */
  lemma HeadOnTime(c: Contents, n: F.Net, links: Links, k: nat, now: real)
    requires OnTime(c, n, links, now) && F.IsHead(n.waiting, k)
    requires var e := (n.waiting[k].at, n.waiting[k].to); e in c && c[e] != [] && c[e][0].due <= now
    ensures var e := (n.waiting[k].at, n.waiting[k].to);
            && OnTime(c[e := c[e][1..]], n.(waiting := F.Without(n.waiting, k)), links, now)
            && Earliest(links, F.Moved(n.waiting[k])) <= now
  {
    hide Earliest, F.Queue, F.Without;
    var w := n.waiting[k];
    var x, f := w.at, w.to;
    var rest := F.Without(n.waiting, k);
    F.QueueOfWithout(n.waiting, k, x, f);
    assert F.Moved(w) == Onward(w.trip, f);
    assert ([w.trip] + F.Queue(rest, x, f))[1..] == F.Queue(rest, x, f);
    forall i: nat, j: nat | (i, j) in c && !(i == x && j == f)
      ensures F.Queue(rest, i, j) == F.Queue(n.waiting, i, j)
    {
      F.QueueOfWithout(n.waiting, k, i, j);
      assert [] + F.Queue(rest, i, j) == F.Queue(rest, i, j);
    }
  }

  /** A head that is due moves on. */
  lemma ReleaseOnTime(c: Contents, n: F.Net, links: Links, next: Tables, max: F.Limits, k: nat, now: real, vtime: real)
    requires OnTime(c, n, links, now) && Capacities(links, max) && F.IsHead(n.waiting, k) && now <= vtime
    requires var e := (n.waiting[k].at, n.waiting[k].to); e in c && c[e] != [] && c[e][0].due <= now
    ensures var w, e := n.waiting[k], (n.waiting[k].at, n.waiting[k].to);
            OnTime(Arrived(c[e := c[e][1..]], links, next, w.to, F.Moved(w), vtime),
                   F.Apply(n, next, max, F.Release(k)), links, vtime)
  {
    hide OnTime, Capacities, Arrived, Earliest, F.Arrive, F.Without;
    HeadOnTime(c, n, links, k, now);
    var w, e := n.waiting[k], (n.waiting[k].at, n.waiting[k].to);
    var rest := n.(waiting := F.Without(n.waiting, k));
    OnTimeLater(c[e := c[e][1..]], rest, links, now, vtime);
    ArriveOnTime(c[e := c[e][1..]], rest, links, next, max, w.to, F.Moved(w), vtime);
  }

  lemma InjectOnTime(c: Contents, n: F.Net, links: Links, next: Tables, max: F.Limits, r: nat, p: Packet, dest: nat,
                     vtime: real)
    requires OnTime(c, n, links, vtime) && Capacities(links, max)
    ensures OnTime(Arrived(c, links, next, r, F.Trip(p, dest, vtime, [r]), vtime),
                   F.Apply(n, next, max, F.Inject(r, p, dest, vtime)), links, vtime)
  {
    hide OnTime, Capacities, Arrived, F.Arrive;
    ArriveOnTime(c, n, links, next, max, r, F.Trip(p, dest, vtime, [r]), vtime);
  }

  // ---------------------------------------------------------------- nothing is late

  /** The queue is empty, or the clock has been read since without its head being due. */
  ghost predicate Quiet(q: seq<Entry>, clock: nat -> real, from: nat, c: nat) {
    q == [] || exists k :: from <= k <= c && q[0].due > clock(k)
  }

  /** The queue from i to j, if there is one, is quiet. */
  ghost predicate QuietAt(q: Contents, i: nat, j: nat, clock: nat -> real, from: nat, c: nat) {
    (i, j) in q ==> Quiet(q[(i, j)], clock, from, c)
  }

  lemma StaysQuiet(q: Contents, i: nat, j: nat, clock: nat -> real, from: nat, c: nat, from': nat, c': nat)
    requires QuietAt(q, i, j, clock, from, c) && from' <= from && c <= c'
    ensures QuietAt(q, i, j, clock, from', c')
  {
  }

  /**
    Between a and b only the queue from i to j has been released from, and only the queues
    of router j have got anything, if woken, which is then another router.
   */
  ghost predicate Stirred(a: Contents, b: Contents, i: nat, j: nat, woken: bool) {
    && a.Keys == b.Keys && (woken ==> i != j)
    && forall k: nat, l: nat :: (k, l) in a && !(k == i && l == j) && !(woken && k == j) ==> b[(k, l)] == a[(k, l)]
  }

  lemma StirredByRelease(a: Contents, b: Contents, i: nat, j: nat, woken: bool, q: seq<Entry>, links: Links,
                         next: Tables, t: F.Trip, vtime: real)
    requires Stirred(a, b, i, j, woken) && i != j && (i, j) in b
    ensures Stirred(a, Arrived(b[(i, j) := q], links, next, j, t, vtime), i, j, woken || t.dest != j)
  {
    hide After;
  }

  /** Between a and b nothing has happened but in the queues of router i and of the woken ones. */
  ghost predicate OnlyAt(a: Contents, b: Contents, i: nat, woken: set<nat>) {
    && a.Keys == b.Keys
    && forall k: nat, l: nat :: (k, l) in a && k != i && k !in woken ==> b[(k, l)] == a[(k, l)]
  }

  /** One queue more has been drained. */
  lemma DrainedOneMore(a: Contents, b: Contents, d: Contents, i: nat, j: nat, more: bool, woken: set<nat>,
                       woken': set<nat>, clock: nat -> real, from: nat, c: nat, c': nat)
    requires OnlyAt(a, b, i, woken) && Stirred(b, d, i, j, more) && from <= c <= c'
    requires woken <= woken' && (more ==> j in woken')
    requires forall l: nat :: l < j ==> QuietAt(b, i, l, clock, from, c)
    requires QuietAt(d, i, j, clock, c', c')
    ensures OnlyAt(a, d, i, woken') && forall l: nat :: l < j + 1 ==> QuietAt(d, i, l, clock, from, c')
  {
    hide Quiet;
    forall l: nat | l < j + 1
      ensures QuietAt(d, i, l, clock, from, c')
    {
      if l == j {
        StaysQuiet(d, i, l, clock, c', c', from, c');
      } else {
        StaysQuiet(b, i, l, clock, from, c, from, c');
      }
    }
  }

  /** All queues of these routers are quiet. */
  ghost predicate AllQuiet(q: Contents, ids: set<nat>, clock: nat -> real, from: nat, c: nat) {
    forall i: nat, j: nat :: i in ids ==> QuietAt(q, i, j, clock, from, c)
  }

  /** One router more has run. */
  lemma RunOneMore(b: Contents, d: Contents, quiet: set<nat>, i: nat, woken: set<nat>, clock: nat -> real, from: nat,
                   c: nat, c': nat)
    requires AllQuiet(b, quiet, clock, from, c) && OnlyAt(b, d, i, woken) && AllQuiet(d, {i}, clock, c, c')
    requires from <= c <= c'
    ensures AllQuiet(d, (quiet - woken) + {i}, clock, from, c')
  {
    hide Quiet;
    forall k: nat, l: nat | k in (quiet - woken) + {i}
      ensures QuietAt(d, k, l, clock, from, c')
    {
      if k == i {
        StaysQuiet(d, k, l, clock, c, c', from, c');
      } else {
        StaysQuiet(b, k, l, clock, from, c, from, c');
      }
    }
  }
}
