/**
  Walks and hop distances in a directed graph of router numbers, and what forwarding by
  next-hop tables does when every table points along shortest walks.
 */
module Paths {

  datatype Graph = Graph(nodes: set<nat>, edges: set<(nat, nat)>)

  ghost predicate WellFormed(g: Graph) {
    forall e :: e in g.edges ==> e.0 in g.nodes && e.1 in g.nodes
  }

  ghost predicate IsWalk(g: Graph, p: seq<nat>) {
    && p != [] && p[0] in g.nodes
    && forall i :: 0 <= i < |p| - 1 ==> (p[i], p[i + 1]) in g.edges
  }

  ghost predicate Walks(g: Graph, u: nat, v: nat, p: seq<nat>) {
    IsWalk(g, p) && p[0] == u && p[|p| - 1] == v
  }

  /** d is the least number of hops from u to v. */
  ghost predicate IsDistance(g: Graph, u: nat, v: nat, d: nat) {
    && (exists p :: Walks(g, u, v, p) && |p| == d + 1)
    && (forall p :: Walks(g, u, v, p) ==> d + 1 <= |p|)
  }

  ghost predicate Connected(g: Graph) {
    forall u, v :: u in g.nodes && v in g.nodes ==> exists p :: Walks(g, u, v, p)
  }

  lemma DistanceIsUnique(g: Graph, u: nat, v: nat, d: nat, d': nat)
    requires IsDistance(g, u, v, d) && IsDistance(g, u, v, d')
    ensures d == d'
  {
    var p :| Walks(g, u, v, p) && |p| == d + 1;
    var p' :| Walks(g, u, v, p') && |p'| == d' + 1;
  }

  lemma DistanceToSelf(g: Graph, u: nat, v: nat, d: nat)
    requires IsDistance(g, u, v, d)
    ensures d == 0 <==> u == v
  {
    var p :| Walks(g, u, v, p) && |p| == d + 1;
    if u == v {
      assert Walks(g, u, v, [u]);
    }
  }

  lemma ConnectedHasDistance(g: Graph, u: nat, v: nat, p: seq<nat>)
    requires Walks(g, u, v, p)
    ensures exists d: nat :: IsDistance(g, u, v, d)
    decreases |p|
  {
    if q :| Walks(g, u, v, q) && |q| < |p| {
      ConnectedHasDistance(g, u, v, q);
    } else {
      assert IsDistance(g, u, v, |p| - 1);
    }
  }

  lemma StepThenWalk(g: Graph, u: nat, w: nat, v: nat, p: seq<nat>)
    requires WellFormed(g) && (u, w) in g.edges && Walks(g, w, v, p)
    ensures Walks(g, u, v, [u] + p)
  {
    var q := [u] + p;
    assert forall i :: 0 < i < |q| ==> q[i] == p[i - 1];
  }

  lemma WalkThenStep(g: Graph, u: nat, w: nat, v: nat, p: seq<nat>)
    requires Walks(g, u, w, p) && (w, v) in g.edges
    ensures Walks(g, u, v, p + [v])
  {
  }

  // ---------------------------------------------------------------- shortest-path labels

  /**
    What the relaxation leaves behind: labels that are zero at the source only, that no
    edge can lower, and that a predecessor one hop nearer accounts for.
   */
  ghost predicate Labelled(g: Graph, src: nat, dist: map<nat, nat>, pred: map<nat, nat>) {
    && WellFormed(g) && src in g.nodes && dist.Keys == g.nodes && dist[src] == 0
    && (forall u, v :: (u, v) in g.edges ==> dist[v] <= dist[u] + 1)
    && (forall v :: v in g.nodes && v != src ==>
          v in pred && (pred[v], v) in g.edges && dist[v] == dist[pred[v]] + 1)
  }

  lemma {:induction false} NoWalkIsShorter(g: Graph, src: nat, dist: map<nat, nat>, pred: map<nat, nat>, v: nat,
                                           p: seq<nat>)
    requires Labelled(g, src, dist, pred) && Walks(g, src, v, p)
    ensures v in g.nodes && dist[v] + 1 <= |p|
    decreases |p|
  {
    if |p| > 1 {
      var q := p[..|p| - 1];
      assert (p[|p| - 2], p[|p| - 1]) in g.edges;
      NoWalkIsShorter(g, src, dist, pred, q[|q| - 1], q);
    }
  }

  lemma {:induction false} PredecessorsMakeAWalk(g: Graph, src: nat, dist: map<nat, nat>, pred: map<nat, nat>, v: nat)
    requires Labelled(g, src, dist, pred) && v in g.nodes
    ensures exists p :: Walks(g, src, v, p) && |p| == dist[v] + 1
    decreases dist[v]
  {
    if v == src {
      assert Walks(g, src, v, [src]);
    } else {
      PredecessorsMakeAWalk(g, src, dist, pred, pred[v]);
      var p :| Walks(g, src, pred[v], p) && |p| == dist[pred[v]] + 1;
      WalkThenStep(g, src, pred[v], v, p);
    }
  }

  /** Such labels are the hop distances. */
  lemma LabelsAreDistances(g: Graph, src: nat, dist: map<nat, nat>, pred: map<nat, nat>, v: nat)
    requires Labelled(g, src, dist, pred) && v in g.nodes
    ensures IsDistance(g, src, v, dist[v])
  {
    PredecessorsMakeAWalk(g, src, dist, pred, v);
    forall p | Walks(g, src, v, p)
      ensures dist[v] + 1 <= |p|
    {
      NoWalkIsShorter(g, src, dist, pred, v, p);
    }
  }

  // ---------------------------------------------------------------- tables

  /** f is a neighbour of src that lies on a shortest walk from src to v. */
  ghost predicate IsFirstHop(g: Graph, src: nat, v: nat, f: nat) {
    && (src, f) in g.edges
    && forall d: nat :: IsDistance(g, src, v, d) ==> d > 0 && IsDistance(g, f, v, d - 1)
  }

  lemma FirstHopFromWalk(g: Graph, src: nat, v: nat, f: nat, d: nat, p: seq<nat>)
    requires WellFormed(g) && IsDistance(g, src, v, d) && d > 0
    requires (src, f) in g.edges && Walks(g, f, v, p) && |p| == d
    ensures IsFirstHop(g, src, v, f)
  {
    forall q | Walks(g, f, v, q)
      ensures d <= |q|
    {
      StepThenWalk(g, src, f, v, q);
    }
    assert IsDistance(g, f, v, d - 1);
    forall d': nat | IsDistance(g, src, v, d')
      ensures d' == d
    {
      DistanceIsUnique(g, src, v, d, d');
    }
  }

  /** next[r][v] is where router r sends what is meant for v. */
  type Tables = map<nat, map<nat, nat>>

  ghost predicate TablesRight(g: Graph, next: Tables) {
    forall r, v :: r in g.nodes && v in g.nodes && r != v ==>
      r in next && v in next[r] && IsFirstHop(g, r, v, next[r][v])
  }

  /** The routers a packet for v passes from r on, n hops at most; it stops at v. */
  function Trail(next: Tables, r: nat, v: nat, n: nat): (trail: seq<nat>)
    ensures trail != [] && trail[0] == r
    decreases n
  {
    if n == 0 || r == v || r !in next || v !in next[r] then [r]
    else [r] + Trail(next, next[r][v], v, n - 1)
  }

  lemma FirstHopIsNearer(g: Graph, r: nat, v: nat, f: nat, d: nat)
    requires WellFormed(g) && IsFirstHop(g, r, v, f) && IsDistance(g, r, v, d)
    ensures d > 0 && f in g.nodes && (r, f) in g.edges && IsDistance(g, f, v, d - 1)
  {
  }

  lemma TableEntry(g: Graph, next: Tables, r: nat, v: nat)
    requires TablesRight(g, next) && r in g.nodes && v in g.nodes && r != v
    ensures r in next && v in next[r] && IsFirstHop(g, r, v, next[r][v])
  {
  }

  /** A walk from r to v of d hops on which every router is one hop nearer to v than the one before. */
  ghost predicate Approaches(g: Graph, trail: seq<nat>, r: nat, v: nat, d: nat) {
    && Walks(g, r, v, trail) && |trail| == d + 1
    && forall i :: 0 <= i <= d ==> IsDistance(g, trail[i], v, d - i)
  }

  lemma AlreadyThere(g: Graph, r: nat)
    requires r in g.nodes && IsDistance(g, r, r, 0)
    ensures Approaches(g, [r], r, r, 0)
  {
  }

  lemma ApproachExtends(g: Graph, r: nat, f: nat, v: nat, d: nat, rest: seq<nat>)
    requires WellFormed(g) && (r, f) in g.edges && IsDistance(g, r, v, d) && d > 0
    requires Approaches(g, rest, f, v, d - 1)
    ensures Approaches(g, [r] + rest, r, v, d)
  {
    StepThenWalk(g, r, f, v, rest);
    hide IsDistance, Walks;
    forall i | 0 <= i <= d
      ensures IsDistance(g, ([r] + rest)[i], v, d - i)
    {
      if i > 0 {
        assert ([r] + rest)[i] == rest[i - 1] && IsDistance(g, rest[i - 1], v, d - 1 - (i - 1));
      }
    }
  }

  lemma TrailUnfolds(next: Tables, r: nat, v: nat, n: nat)
    ensures r == v ==> Trail(next, r, v, n) == [r]
    ensures n > 0 && r != v && r in next && v in next[r] ==>
              Trail(next, r, v, n) == [r] + Trail(next, next[r][v], v, n - 1)
  {
  }

  lemma {:induction false} TrailApproaches(g: Graph, next: Tables, r: nat, v: nat, d: nat, n: nat)
    requires WellFormed(g) && TablesRight(g, next) && r in g.nodes && v in g.nodes
    requires IsDistance(g, r, v, d) && d <= n
    ensures Approaches(g, Trail(next, r, v, n), r, v, d)
    decreases n
  {
    hide *;
    DistanceToSelf(g, r, v, d);
    TrailUnfolds(next, r, v, n);
    if r == v {
      AlreadyThere(g, r);
    } else {
      TableEntry(g, next, r, v);
      var f := next[r][v];
      FirstHopIsNearer(g, r, v, f, d);
      TrailApproaches(g, next, f, v, d - 1, n - 1);
      ApproachExtends(g, r, f, v, d, Trail(next, f, v, n - 1));
    }
  }

  lemma OneRouterOneDistance(g: Graph, u: nat, w: nat, v: nat, d: nat, e: nat)
    requires IsDistance(g, u, v, d) && IsDistance(g, w, v, e) && d != e
    ensures u != w
  {
    if u == w {
      DistanceIsUnique(g, u, v, d, e);
    }
  }

  /**
    Hop-by-hop forwarding through all the separate tables: a packet reaches its
    destination in exactly the hop distance, over edges of the topology, and meets
    no router twice.
   */
  lemma ForwardingIsShortestAndLoopFree(g: Graph, next: Tables, r: nat, v: nat, d: nat, n: nat)
    requires WellFormed(g) && TablesRight(g, next) && r in g.nodes && v in g.nodes
    requires IsDistance(g, r, v, d) && d <= n
    ensures Walks(g, r, v, Trail(next, r, v, n)) && |Trail(next, r, v, n)| == d + 1
    ensures forall i, j :: 0 <= i < j <= d ==> Trail(next, r, v, n)[i] != Trail(next, r, v, n)[j]
  {
    TrailApproaches(g, next, r, v, d, n);
    hide IsDistance;
    var trail := Trail(next, r, v, n);
    forall i, j | 0 <= i < j <= d
      ensures trail[i] != trail[j]
    {
      OneRouterOneDistance(g, trail[i], trail[j], v, d - i, d - j);
    }
  }

  /** On a connected topology every packet arrives, whatever router it starts from. */
  lemma EveryPacketArrives(g: Graph, next: Tables, r: nat, v: nat)
    requires WellFormed(g) && Connected(g) && TablesRight(g, next) && r in g.nodes && v in g.nodes
    ensures exists d: nat ::
              IsDistance(g, r, v, d) && Walks(g, r, v, Trail(next, r, v, d)) && |Trail(next, r, v, d)| == d + 1
  {
    var p :| Walks(g, r, v, p);
    ConnectedHasDistance(g, r, v, p);
    var d: nat :| IsDistance(g, r, v, d);
    hide *;
    ForwardingIsShortestAndLoopFree(g, next, r, v, d, d);
  }
}
