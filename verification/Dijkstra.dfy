/**
  The invariant of the shortest-path computation in hupsim.pl, on the labels alone.
 */
module Dijkstra {
  import opened Paths

  const INFINITY: nat := 65535   // hupsim.pl:73

  /** The label of every vertex and, where one has been set in this computation or an earlier one, its predecessor. */
  datatype Labels = Labels(dist: map<nat, nat>, pred: map<nat, nat>)

  /** What holds when the vertices in fin have been visited.  Nothing is said of stale predecessors. */
  ghost predicate Visited(g: Graph, src: nat, l: Labels, fin: set<nat>) {
    && WellFormed(g) && src in g.nodes && fin <= g.nodes
    && l.dist.Keys == g.nodes && l.dist[src] == 0
    && (forall v :: v in g.nodes ==> l.dist[v] <= INFINITY)
    && (forall v :: v in g.nodes && v != src && l.dist[v] < INFINITY ==> ReachedFrom(g, l, fin, v))
    && (forall u, w :: u in fin && w in g.nodes && w !in fin ==> l.dist[u] <= l.dist[w])
    && (forall u, v :: (u, v) in g.edges && u in fin ==> l.dist[v] <= l.dist[u] + 1)
  }

  /** A visited predecessor, one hop nearer, accounts for the label of v. */
  ghost predicate ReachedFrom(g: Graph, l: Labels, fin: set<nat>, v: nat)
    requires l.dist.Keys == g.nodes && fin <= g.nodes && v in g.nodes
  {
    v in l.pred && l.pred[v] in fin && (l.pred[v], v) in g.edges && l.dist[v] == l.dist[l.pred[v]] + 1
  }

  ghost predicate Nearest(g: Graph, l: Labels, fin: set<nat>, next: nat)
    requires l.dist.Keys == g.nodes
  {
    && next in g.nodes && next !in fin
    && forall w :: w in g.nodes && w !in fin ==> l.dist[next] <= l.dist[w]
  }

  /** The edge from next to v improves v. */
  predicate Improves(g: Graph, l: Labels, next: nat, v: nat)
    requires next in l.dist && v in l.dist
  {
    (next, v) in g.edges && l.dist[v] > l.dist[next] + 1
  }

  function Relaxed(g: Graph, l: Labels, next: nat): Labels
    requires l.dist.Keys == g.nodes && next in g.nodes
  {
    Labels(map v | v in g.nodes :: if Improves(g, l, next, v) then l.dist[next] + 1 else l.dist[v],
           map v | v in l.pred.Keys + g.nodes && (v in l.pred || Improves(g, l, next, v)) ::
             if v in g.nodes && Improves(g, l, next, v) then next else l.pred[v])
  }

  lemma StartIsVisited(g: Graph, src: nat, l: Labels)
    requires WellFormed(g) && src in g.nodes && l.dist.Keys == g.nodes
    requires forall v :: v in g.nodes ==> l.dist[v] == if v == src then 0 else INFINITY
    ensures Visited(g, src, l, {})
  {
  }

  /** Visited vertices are never relabelled. */
  lemma VisitedAreSettled(g: Graph, src: nat, l: Labels, fin: set<nat>, next: nat, u: nat)
    requires Visited(g, src, l, fin) && Nearest(g, l, fin, next) && (u in fin || u == next)
    ensures !Improves(g, l, next, u)
  {
  }

  lemma RelaxingKeepsPredecessors(g: Graph, src: nat, l: Labels, fin: set<nat>, next: nat, v: nat)
    requires Visited(g, src, l, fin) && Nearest(g, l, fin, next)
    requires v in g.nodes && v != src && Relaxed(g, l, next).dist[v] < INFINITY
    ensures ReachedFrom(g, Relaxed(g, l, next), fin + {next}, v)
  {
    if Improves(g, l, next, v) {
      VisitedAreSettled(g, src, l, fin, next, next);
    } else {
      VisitedAreSettled(g, src, l, fin, next, l.pred[v]);
    }
  }

  lemma RelaxingKeepsEdges(g: Graph, src: nat, l: Labels, fin: set<nat>, next: nat, u: nat, v: nat)
    requires Visited(g, src, l, fin) && Nearest(g, l, fin, next)
    requires (u, v) in g.edges && (u in fin || u == next)
    ensures Relaxed(g, l, next).dist[v] <= Relaxed(g, l, next).dist[u] + 1
  {
    VisitedAreSettled(g, src, l, fin, next, u);
  }

  lemma RelaxingKeepsOrder(g: Graph, src: nat, l: Labels, fin: set<nat>, next: nat, u: nat, w: nat)
    requires Visited(g, src, l, fin) && Nearest(g, l, fin, next)
    requires (u in fin || u == next) && w in g.nodes && w !in fin && w != next
    ensures Relaxed(g, l, next).dist[u] <= Relaxed(g, l, next).dist[w]
  {
    VisitedAreSettled(g, src, l, fin, next, u);
  }

  lemma RelaxingKeepsBounds(g: Graph, src: nat, l: Labels, fin: set<nat>, next: nat)
    requires Visited(g, src, l, fin) && Nearest(g, l, fin, next)
    ensures var r := Relaxed(g, l, next);
            r.dist[src] == 0 && forall v :: v in g.nodes ==> r.dist[v] <= INFINITY
  {
  }

  /** One turn of the visiting loop. */
  lemma VisitKeeps(g: Graph, src: nat, l: Labels, fin: set<nat>, next: nat)
    requires Visited(g, src, l, fin) && Nearest(g, l, fin, next)
    ensures Visited(g, src, Relaxed(g, l, next), fin + {next})
  {
    var r, fin' := Relaxed(g, l, next), fin + {next};
    RelaxingKeepsBounds(g, src, l, fin, next);
    assert r.dist.Keys == g.nodes;
    hide Relaxed, ReachedFrom;
    forall v | v in g.nodes && v != src && r.dist[v] < INFINITY
      ensures ReachedFrom(g, r, fin', v)
    {
      RelaxingKeepsPredecessors(g, src, l, fin, next, v);
    }
    forall u, v | (u, v) in g.edges && u in fin'
      ensures r.dist[v] <= r.dist[u] + 1
    {
      RelaxingKeepsEdges(g, src, l, fin, next, u, v);
    }
    forall u, w | u in fin' && w in g.nodes && w !in fin'
      ensures r.dist[u] <= r.dist[w]
    {
      RelaxingKeepsOrder(g, src, l, fin, next, u, w);
    }
  }

  // ---------------------------------------------------------------- everybody is reached

  /** The vertices on the predecessor chain of v; their labels are v's and all smaller ones. */
  ghost function Chain(g: Graph, src: nat, l: Labels, v: nat): set<nat>
    requires Visited(g, src, l, g.nodes) && v in g.nodes && l.dist[v] < INFINITY
    decreases l.dist[v]
  {
    if v == src then {v} else assert ReachedFrom(g, l, g.nodes, v); Chain(g, src, l, l.pred[v]) + {v}
  }

  lemma {:induction false} ChainHasOneOfEachLabel(g: Graph, src: nat, l: Labels, v: nat)
    requires Visited(g, src, l, g.nodes) && v in g.nodes && l.dist[v] < INFINITY
    ensures Chain(g, src, l, v) <= g.nodes && |Chain(g, src, l, v)| == l.dist[v] + 1
    ensures forall u :: u in Chain(g, src, l, v) ==> l.dist[u] <= l.dist[v]
    decreases l.dist[v]
  {
    if v != src {
      ChainHasOneOfEachLabel(g, src, l, l.pred[v]);
      assert v !in Chain(g, src, l, l.pred[v]);
    }
  }

  lemma SubsetIsNoLarger(a: set<nat>, b: set<nat>)
    requires a <= b
    ensures |a| <= |b|
    decreases |a|
  {
    if x :| x in a {
      SubsetIsNoLarger(a - {x}, b - {x});
    }
  }

  lemma {:induction false} ReachedAlongWalk(g: Graph, src: nat, l: Labels, v: nat, p: seq<nat>)
    requires Visited(g, src, l, g.nodes) && |g.nodes| < INFINITY && Walks(g, src, v, p)
    ensures v in g.nodes && v in l.dist && l.dist[v] < INFINITY
    decreases |p|
  {
    if |p| > 1 {
      var q := p[..|p| - 1];
      var u := q[|q| - 1];
      assert (p[|p| - 2], p[|p| - 1]) in g.edges;
      ReachedAlongWalk(g, src, l, u, q);
      ChainHasOneOfEachLabel(g, src, l, u);
      SubsetIsNoLarger(Chain(g, src, l, u), g.nodes);
    }
  }

  lemma WalkFrom(g: Graph, src: nat, l: Labels, v: nat) returns (p: seq<nat>)
    requires Visited(g, src, l, g.nodes) && Connected(g) && v in g.nodes
    ensures Walks(g, src, v, p)
  {
    hide Walks, ReachedFrom;
    p :| Walks(g, src, v, p);
  }

  lemma AllAreReached(g: Graph, src: nat, l: Labels)
    requires Visited(g, src, l, g.nodes) && Connected(g) && |g.nodes| < INFINITY
    ensures forall v :: v in g.nodes ==> v in l.dist && l.dist[v] < INFINITY
  {
    hide Visited, Connected, Walks;
    forall v | v in g.nodes
      ensures v in l.dist && l.dist[v] < INFINITY
    {
      var p := WalkFrom(g, src, l, v);
      ReachedAlongWalk(g, src, l, v, p);
    }
  }

  /** With every vertex visited on a connected topology the labels are final. */
  lemma AllVisitedIsLabelled(g: Graph, src: nat, l: Labels)
    requires Visited(g, src, l, g.nodes) && Connected(g) && |g.nodes| < INFINITY
    ensures Labelled(g, src, l.dist, l.pred)
    ensures forall v :: v in g.nodes ==> l.dist[v] < INFINITY
  {
    hide Connected;
    AllAreReached(g, src, l);
  }

  /** The vertex one hop from the source on the predecessor chain of v is a first hop. */
  lemma ChainEndIsFirstHop(g: Graph, src: nat, l: Labels, v: nat, w: nat, p: seq<nat>)
    requires Labelled(g, src, l.dist, l.pred) && v in g.nodes && v != src
    requires w in g.nodes && w != src && l.pred[w] == src
    requires Walks(g, w, v, p) && |p| == l.dist[v] - l.dist[w] + 1
    ensures IsFirstHop(g, src, v, w)
  {
    LabelsAreDistances(g, src, l.dist, l.pred, v);
    FirstHopFromWalk(g, src, v, w, l.dist[v], p);
  }
}
