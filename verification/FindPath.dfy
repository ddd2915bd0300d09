/** The route planner (`find_path`): Dijkstra's algorithm over a heap that keeps stale
    entries, then the route rebuilt backwards and cut where the train turns round. */
module FindPath {
  import opened Sequences
  import opened TrackGraph
  import opened Wrappers

  const MAX_PATH_SEGMENT_LEN: nat := TRACK_MAX / 2
  const MAX_PATH_SEGMENTS: nat := 4
  const MAX_NODES: nat := MAX_PATH_SEGMENT_LEN * MAX_PATH_SEGMENTS

  datatype HeapElem = HeapElem(node: nat, dist: int)

  /** A priority queue of fixed capacity: pushing into a full one is an error. */
  class BoundedHeap {
    var elems: multiset<HeapElem>

    constructor ()
      ensures elems == multiset{}
    {
      elems := multiset{};
    }

    method Push(e: HeapElem)
      requires |elems| < MAX_NODES
      modifies this
      ensures elems == old(elems) + multiset{e}
    {
      elems := elems + multiset{e};
    }

    /** Which of several least entries comes out is not determined. */
    method Pop() returns (e: HeapElem)
      requires |elems| > 0
      modifies this
      ensures e in old(elems) && elems == old(elems) - multiset{e} && |elems| == |old(elems)| - 1
      ensures IsLeast(old(elems), e)
    {
      ghost var least := LeastExists(elems);
      e :| e in elems && IsLeast(elems, e);
      elems := elems - multiset{e};
    }
  }

  predicate IsLeast(q: multiset<HeapElem>, e: HeapElem) {
    e in q && forall f | f in q :: e.dist <= f.dist
  }

  lemma {:induction false} LeastExists(q: multiset<HeapElem>) returns (e: HeapElem)
    requires |q| > 0
    ensures IsLeast(q, e)
    decreases |q|
  {
    e :| e in q;
    var rest := q - multiset{e};
    assert forall f | f in q :: f == e || f in rest;
    if |rest| > 0 {
      var least := LeastExists(rest);
      e := if least.dist < e.dist then least else e;
    }
  }

  // ----- The search -----

  /** When a node was finalised; nodes not finalised yet come after all others. */
  ghost function Turn(rank: map<nat, nat>, n: nat): nat {
    if n in rank then rank[n] else |rank|
  }

  /** Why `n` has its distance: it was reached from `p`, which was finalised before it. */
  ghost predicate Link(g: Track, blocked: set<nat>, dist: map<nat, int>, rank: map<nat, nat>, p: nat, n: nat)
    requires Shaped(g)
  {
    && p < |g| && p in dist && p in rank && p !in blocked && n in dist
    && Arc(g, p, n)
    && dist[n] == dist[p] + ArcCost(g, p, n)
    && rank[p] < Turn(rank, n)
  }

  ghost predicate Tree(g: Track, blocked: set<nat>, start: nat,
                       dist: map<nat, int>, prev: map<nat, nat>, rank: map<nat, nat>)
    requires Shaped(g)
  {
    && start in dist && dist[start] == 0
    && (forall n | n in dist :: n < |g| && 0 <= dist[n])
    && prev.Keys == dist.Keys - {start}
    && rank.Keys <= dist.Keys
    && (forall n | n in rank :: rank[n] < |rank|)
    && (forall n | n in prev :: Link(g, blocked, dist, rank, prev[n], n))
  }

  /** The heap holds an entry for every node still to be finalised, and no entry is below
      `d`, the distance reached so far. */
  ghost predicate HeapOk(dist: map<nat, int>, rank: map<nat, nat>, q: multiset<HeapElem>, d: int) {
    && (forall e | e in q :: e.node in dist && dist[e.node] <= e.dist && d <= e.dist)
    && (forall n | n in dist && n !in rank :: HeapElem(n, dist[n]) in q)
    && (forall n | n in rank && n in dist :: dist[n] <= d)
  }

  ghost predicate Relaxed(g: Track, dist: map<nat, int>, n: nat, m: nat)
    requires Shaped(g) && n < |g| && n in dist && Arc(g, n, m)
  {
    m in dist && dist[m] <= dist[n] + ArcCost(g, n, m)
  }

  /** Every arc out of `n` has been relaxed. */
  ghost predicate Expanded(g: Track, dist: map<nat, int>, n: nat)
    requires Shaped(g)
  {
    n < |g| && n in dist && forall m: nat | m < |g| && Arc(g, n, m) :: Relaxed(g, dist, n, m)
  }

  ghost predicate Closed(g: Track, blocked: set<nat>, dist: map<nat, int>, rank: map<nat, nat>)
    requires Shaped(g)
  {
    forall n | n in rank && n !in blocked :: Expanded(g, dist, n)
  }

  ghost function Finalised(rank: map<nat, nat>, n: nat): map<nat, nat> {
    if n in rank then rank else rank[n := |rank|]
  }

  /** Finalised nodes all get smaller distances than `dist` had: relaxing keeps what was
      relaxed, and finalised distances stand. */
  ghost predicate Improves(dist: map<nat, int>, dist': map<nat, int>, rank: map<nat, nat>) {
    && dist.Keys <= dist'.Keys
    && (forall n | n in dist :: dist'[n] <= dist[n])
    && (forall n | n in dist && n in rank :: dist'[n] == dist[n])
  }

  lemma {:induction false} ClosedKept(g: Track, blocked: set<nat>, dist: map<nat, int>, dist': map<nat, int>,
                                      rank: map<nat, nat>, n: nat)
    requires Shaped(g) && Closed(g, blocked, dist, rank)
    requires Improves(dist, dist', Finalised(rank, n)) && Expanded(g, dist', n)
    ensures Closed(g, blocked, dist', Finalised(rank, n))
  {
  }

  lemma {:induction false} RelaxTree(g: Track, blocked: set<nat>, start: nat, dist: map<nat, int>, prev: map<nat, nat>,
                                     rank: map<nat, nat>, n: nat, m: nat, alt: int)
    requires Shaped(g) && Tree(g, blocked, start, dist, prev, rank)
    requires n in rank && n < |g| && n !in blocked && m < |g| && Arc(g, n, m)
    requires m !in rank && 0 <= alt == dist[n] + ArcCost(g, n, m) && (m in dist ==> alt < dist[m])
    ensures Tree(g, blocked, start, dist[m := alt], prev[m := n], rank)
  {
    var dist', prev' := dist[m := alt], prev[m := n];
    forall x | x in prev'
      ensures Link(g, blocked, dist', rank, prev'[x], x)
    {
      assert x in prev ==> Link(g, blocked, dist, rank, prev[x], x);
    }
    hide Link;
  }

  lemma {:induction false} RelaxHeap(dist: map<nat, int>, rank: map<nat, nat>, q: multiset<HeapElem>, d: int, m: nat,
                                     alt: int)
    requires HeapOk(dist, rank, q, d) && m !in rank && d <= alt && (m in dist ==> alt < dist[m])
    ensures HeapOk(dist[m := alt], rank, q + multiset{HeapElem(m, alt)}, d)
  {
  }

  /** The body shared by the edge loop and the reversal: offer `m` the distance `alt`. */
  method Relax(g: Track, ghost blocked: set<nat>, ghost start: nat, ghost rank: map<nat, nat>, n: nat, ghost d: int,
               m: nat, alt: int, dist: map<nat, int>, prev: map<nat, nat>, q: BoundedHeap)
    returns (dist': map<nat, int>, prev': map<nat, nat>)
    requires WellFormed(g) && Tree(g, blocked, start, dist, prev, rank) && HeapOk(dist, rank, q.elems, d)
    requires n in rank && n < |g| && n !in blocked && dist[n] <= d
    requires m < |g| && Arc(g, n, m) && alt == d + ArcCost(g, n, m)
    requires dist[n] == d || Relaxed(g, dist, n, m)
    requires Relaxed(g, dist, n, m) || |q.elems| < MAX_NODES
    modifies q
    ensures Tree(g, blocked, start, dist', prev', rank) && HeapOk(dist', rank, q.elems, d)
    ensures Improves(dist, dist', rank) && Relaxed(g, dist', n, m)
    ensures |q.elems| <= |old(q.elems)| + 1
    ensures Relaxed(g, dist, n, m) ==> q.elems == old(q.elems) && dist' == dist
  {
    dist', prev' := dist, prev;
    ArcCostNonNegative(g, n, m);
    assert n in dist && 0 <= dist[n];
    assert m in rank ==> m in dist && dist[m] <= d;
    hide Tree, HeapOk, WellFormed, Arc, ArcCost;
    if m !in dist || alt < dist[m] {
      RelaxTree(g, blocked, start, dist, prev, rank, n, m, alt);
      RelaxHeap(dist, rank, q.elems, d, m, alt);
      dist' := dist[m := alt];
      prev' := prev[m := n];
      q.Push(HeapElem(m, alt));
    }
  }

  /** One expansion of `n`, popped with distance `d`. A stale entry pushes nothing. */
  method Expand(g: Track, ghost blocked: set<nat>, ghost start: nat, ghost rank: map<nat, nat>, n: nat, d: int,
                dist: map<nat, int>, prev: map<nat, nat>, q: BoundedHeap)
    returns (dist': map<nat, int>, prev': map<nat, nat>)
    requires WellFormed(g) && Tree(g, blocked, start, dist, prev, rank) && HeapOk(dist, rank, q.elems, d)
    requires n in rank && n < |g| && n in dist && n !in blocked && dist[n] <= d
    requires dist[n] == d || Expanded(g, dist, n)
    requires Expanded(g, dist, n) || |q.elems| + 2 <= MAX_NODES
    modifies q
    ensures Tree(g, blocked, start, dist', prev', rank) && HeapOk(dist', rank, q.elems, d)
    ensures Improves(dist, dist', rank) && Expanded(g, dist', n)
    ensures |q.elems| <= |old(q.elems)| + 2
    ensures Expanded(g, dist, n) ==> q.elems == old(q.elems) && dist' == dist
  {
    hide Tree, HeapOk;
    dist', prev' := dist, prev;
    assert ArcsOk(g, n) && MirrorOk(g, n);
    ghost var already := Expanded(g, dist, n);
    var i := 0;
    while i < |g[n].edge|
      invariant i <= 2
      invariant Tree(g, blocked, start, dist', prev', rank) && HeapOk(dist', rank, q.elems, d)
      invariant Improves(dist, dist', rank)
      invariant forall k | 0 <= k < i && g[n].edge[k].Edge? :: Relaxed(g, dist', n, g[n].edge[k].dest)
      invariant already ==> q.elems == old(q.elems) && dist' == dist
      invariant |q.elems| <= |old(q.elems)| + i
      invariant g[n].kind.Sensor? ==> |q.elems| <= |old(q.elems)| + 1
    {
      var edge := g[n].edge[i];
      if edge.Edge? {
        assert Leads(g, n, i, edge.dest);
        assert already ==> Relaxed(g, dist, n, edge.dest);
        ghost var before := dist';
        dist', prev' := Relax(g, blocked, start, rank, n, d, edge.dest, d + edge.dist, dist', prev', q);
        forall k | 0 <= k < i && g[n].edge[k].Edge?
          ensures Relaxed(g, dist', n, g[n].edge[k].dest)
        {
          assert Relaxed(g, before, n, g[n].edge[k].dest);
        }
      }
      i := i + 1;
    }

    ghost var before := dist';
    if g[n].kind.Sensor? {
      var rev := g[n].reverse;
      assert CanReverse(g, n, rev) && !HasEdge(g, n, rev);
      assert already ==> Relaxed(g, dist, n, rev);
      dist', prev' := Relax(g, blocked, start, rank, n, d, rev, d, dist', prev', q);
    }
    forall m: nat | m < |g| && Arc(g, n, m)
      ensures Relaxed(g, dist', n, m)
    {
      if HasEdge(g, n, m) {
        var k := if Leads(g, n, 0, m) then 0 else 1;
        assert Relaxed(g, before, n, g[n].edge[k].dest);
      }
    }
  }

  lemma {:induction false} FewerThan(s: set<nat>, n: nat)
    requires forall x | x in s :: x < n
    ensures |s| <= n
  {
    if n == 0 {
      assert s == {};
    } else {
      FewerThan(s - {n - 1}, n - 1);
    }
  }

  lemma {:induction false} RouteLenNonNegative(g: Track, blocked: set<nat>, p: seq<nat>)
    requires WellFormed(g) && IsRoute(g, blocked, p)
    ensures RouteLen(g, blocked, p) >= 0
    decreases |p|
  {
    if |p| == 1 {
    } else {
      ArcCostNonNegative(g, p[0], p[1]);
      RouteLenNonNegative(g, blocked, p[1..]);
    }
  }

  /** Where the heap has nothing below `d`, no route to a node that is not finalised is
      shorter than `d`. */
  lemma {:induction false} NoShorterRoute(g: Track, blocked: set<nat>, dist: map<nat, int>, rank: map<nat, nat>,
                                          d: int, end: nat, p: seq<nat>)
    requires WellFormed(g) && IsRoute(g, blocked, p) && p[|p| - 1] == end
    requires p[0] in dist && end !in rank
    requires Closed(g, blocked, dist, rank)
    requires forall n | n in dist && n !in rank :: d <= dist[n]
    ensures d <= dist[p[0]] + RouteLen(g, blocked, p)
    decreases |p|
  {
    if p[0] !in rank {
      RouteLenNonNegative(g, blocked, p);
    } else {
      assert Expanded(g, dist, p[0]);
      assert Relaxed(g, dist, p[0], p[1]);
      NoShorterRoute(g, blocked, dist, rank, d, end, p[1..]);
    }
  }

  /** Once every reached node is finalised, every route out of a reached node stays among them. */
  lemma {:induction false} NoEscape(g: Track, blocked: set<nat>, dist: map<nat, int>, rank: map<nat, nat>, p: seq<nat>)
    requires WellFormed(g) && IsRoute(g, blocked, p) && p[0] in dist
    requires Closed(g, blocked, dist, rank) && dist.Keys <= rank.Keys
    ensures p[|p| - 1] in dist
    decreases |p|
  {
    if |p| == 1 {
    } else {
      assert Expanded(g, dist, p[0]);
      assert Relaxed(g, dist, p[0], p[1]);
      NoEscape(g, blocked, dist, rank, p[1..]);
    }
  }

  ghost predicate Shortest(g: Track, blocked: set<nat>, start: nat, end: nat, d: int)
    requires Shaped(g)
  {
    forall p | RouteBetween(g, blocked, start, end, p) :: d <= RouteLen(g, blocked, p)
  }

  ghost predicate Unreachable(g: Track, blocked: set<nat>, start: nat, end: nat)
    requires Shaped(g)
  {
    forall p :: !RouteBetween(g, blocked, start, end, p)
  }

  lemma {:induction false} Start(g: Track, blocked: set<nat>, start: nat)
    requires WellFormed(g) && start < |g|
    ensures Tree(g, blocked, start, map[start := 0], map[], map[])
    ensures HeapOk(map[start := 0], map[], multiset{HeapElem(start, 0)}, 0)
    ensures Closed(g, blocked, map[start := 0], map[])
  {
  }

  lemma {:induction false} PoppedTree(g: Track, blocked: set<nat>, start: nat, dist: map<nat, int>, prev: map<nat, nat>,
                                      rank: map<nat, nat>, n: nat)
    requires WellFormed(g) && Tree(g, blocked, start, dist, prev, rank) && n in dist
    ensures var rank' := Finalised(rank, n);
      && Tree(g, blocked, start, dist, prev, rank') && |rank'| <= |g|
      && |rank'| == |rank| + (if n in rank then 0 else 1)
  {
    var rank' := Finalised(rank, n);
    forall x | x in prev
      ensures Link(g, blocked, dist, rank', prev[x], x)
    {
      assert Link(g, blocked, dist, rank, prev[x], x);
    }
    FewerThan(rank'.Keys, |g|);
    assert |rank'| == |rank'.Keys|;
  }

  lemma {:induction false} PoppedHeap(dist: map<nat, int>, rank: map<nat, nat>, q: multiset<HeapElem>, level: int,
                                      top: HeapElem)
    requires HeapOk(dist, rank, q, level) && IsLeast(q, top)
    ensures HeapOk(dist, Finalised(rank, top.node), q - multiset{top}, top.dist)
    ensures top.node in dist && dist[top.node] <= top.dist
    ensures top.node !in rank ==> dist[top.node] == top.dist
    ensures forall n | n in dist && n !in rank :: top.dist <= dist[n]
  {
    if top.node !in rank {
      assert HeapElem(top.node, dist[top.node]) in q;
    }
    forall x | x in dist && x !in rank
      ensures top.dist <= dist[x]
    {
      assert HeapElem(x, dist[x]) in q;
    }
  }

  /** Popping a least entry finalises its node, unless the entry is stale. */
  lemma {:induction false} Popped(g: Track, blocked: set<nat>, start: nat, dist: map<nat, int>, prev: map<nat, nat>,
                                  rank: map<nat, nat>, q: multiset<HeapElem>, level: int, top: HeapElem)
    requires WellFormed(g) && Tree(g, blocked, start, dist, prev, rank) && HeapOk(dist, rank, q, level)
    requires Closed(g, blocked, dist, rank) && IsLeast(q, top)
    ensures var rank' := Finalised(rank, top.node);
      && Tree(g, blocked, start, dist, prev, rank')
      && HeapOk(dist, rank', q - multiset{top}, top.dist)
      && |rank'| <= |g|
      && |rank'| == |rank| + (if top.node in rank then 0 else 1)
      && (top.node in blocked ==> Closed(g, blocked, dist, rank'))
    ensures top.node < |g| && top.node in dist && dist[top.node] <= top.dist
    ensures top.node !in rank ==> dist[top.node] == top.dist
    ensures top.node in rank && top.node !in blocked ==> Expanded(g, dist, top.node)
    ensures forall n | n in dist && n !in rank :: top.dist <= dist[n]
    ensures start in dist && dist[start] == 0
  {
    PoppedHeap(dist, rank, q, level, top);
    PoppedTree(g, blocked, start, dist, prev, rank, top.node);
    hide HeapOk, Link, WellFormed, Expanded, IsLeast;
  }

  lemma {:induction false} Exhausted(g: Track, blocked: set<nat>, start: nat, dist: map<nat, int>,
                                     prev: map<nat, nat>, rank: map<nat, nat>,
                  level: int, end: nat)
    requires WellFormed(g) && Tree(g, blocked, start, dist, prev, rank) && HeapOk(dist, rank, multiset{}, level)
    requires Closed(g, blocked, dist, rank) && end !in rank
    ensures end !in dist && Unreachable(g, blocked, start, end)
  {
    forall p | RouteBetween(g, blocked, start, end, p)
      ensures false
    {
      NoEscape(g, blocked, dist, rank, p);
    }
  }

  lemma {:induction false} Reached(g: Track, blocked: set<nat>, start: nat, dist: map<nat, int>, rank: map<nat, nat>,
                                   end: nat)
    requires WellFormed(g) && start in dist && dist[start] == 0 && end in dist && end !in rank
    requires Closed(g, blocked, dist, rank)
    requires forall n | n in dist && n !in rank :: dist[end] <= dist[n]
    ensures Shortest(g, blocked, start, end, dist[end])
  {
    forall p | RouteBetween(g, blocked, start, end, p)
      ensures dist[end] <= RouteLen(g, blocked, p)
    {
      NoShorterRoute(g, blocked, dist, rank, dist[end], end, p);
    }
  }

  /** What is left of the fixed capacity: two arcs a node, over at most `TRACK_MAX` nodes. */
  lemma {:induction false} HeapBound(heap: nat, finalised: nat, nodes: nat)
    requires nodes <= TRACK_MAX && finalised + 1 <= nodes
    requires if finalised == 0 then heap == 1 else heap <= 2 * finalised
    ensures heap - 1 + 2 <= MAX_NODES
  {
  }

  method Search(g: Track, start: nat, end: nat, blocked: set<nat>)
    returns (dist: map<nat, int>, prev: map<nat, nat>, ghost rank: map<nat, nat>)
    requires WellFormed(g) && start < |g| && end < |g|
    ensures Tree(g, blocked, start, dist, prev, rank)
    ensures end in dist ==> Shortest(g, blocked, start, end, dist[end])
    ensures end !in dist ==> Unreachable(g, blocked, start, end)
  {
    assert Shaped(g) && |g| <= TRACK_MAX;
    hide Tree, HeapOk, Shortest, Unreachable, Closed, Expanded, Improves, WellFormed;
    dist, prev, rank := map[start := 0], map[], map[];
    var q := new BoundedHeap();
    q.Push(HeapElem(start, 0));
    Start(g, blocked, start);
    assert q.elems == multiset{HeapElem(start, 0)};
    ghost var level := 0;
    while |q.elems| > 0
      invariant fresh(q)
      invariant Tree(g, blocked, start, dist, prev, rank) && HeapOk(dist, rank, q.elems, level)
      invariant Closed(g, blocked, dist, rank)
      invariant end !in rank
      invariant if |rank| == 0 then |q.elems| == 1 else |q.elems| <= 2 * |rank|
      decreases |g| - |rank|, |q.elems|
    {
      ghost var heap, known := q.elems, rank;
      var top := q.Pop();
      var n, d := top.node, top.dist;
      Popped(g, blocked, start, dist, prev, rank, heap, level, top);
      level := d;
      if n == end {
        Reached(g, blocked, start, dist, rank, end);
        return;
      }
      rank := Finalised(rank, n);
      if n in blocked {
        continue;
      }
      ghost var before := dist;
      assert n in known ==> Expanded(g, dist, n);
      if n !in known {
        HeapBound(|heap|, |known|, |g|);
      }
      dist, prev := Expand(g, blocked, start, rank, n, d, dist, prev, q);
      ClosedKept(g, blocked, before, dist, known, n);
    }
    assert q.elems == multiset{};
    Exhausted(g, blocked, start, dist, prev, rank, level, end);
  }

  // ----- The reconstruction -----

  datatype Segment = Segment(nodes: seq<nat>, dist: int)

  function Reverse<T>(s: seq<T>): (r: seq<T>)
    ensures |r| == |s|
    ensures forall i | 0 <= i < |s| :: r[i] == s[|s| - 1 - i]
  {
    if s == [] then [] else Reverse(s[1..]) + [s[0]]
  }

  /** Segments are walks, and the train turns round on a sensor between two of them. */
  ghost predicate IsPlan(g: Track, plan: seq<Segment>)
    requires Shaped(g)
  {
    && |plan| > 0
    && (forall k | 0 <= k < |plan| :: IsWalk(g, plan[k].nodes))
    && (forall k | 0 <= k < |plan| - 1 :: CanReverse(g, Last(plan[k].nodes), plan[k + 1].nodes[0]))
  }

  function Nodes(plan: seq<Segment>): seq<nat> {
    if plan == [] then [] else plan[0].nodes + Nodes(plan[1..])
  }

  function TotalDist(plan: seq<Segment>): int {
    if plan == [] then 0 else plan[0].dist + TotalDist(plan[1..])
  }

  ghost predicate Measured(g: Track, plan: seq<Segment>)
    requires Shaped(g) && IsPlan(g, plan)
  {
    forall k | 0 <= k < |plan| :: plan[k].dist == WalkLen(g, plan[k].nodes)
  }

  ghost predicate MeasuredPlan(g: Track, plan: seq<Segment>)
    requires Shaped(g)
  {
    IsPlan(g, plan) && Measured(g, plan)
  }

  lemma {:induction false} ConsTurn(g: Track, n: nat, plan: seq<Segment>, plan': seq<Segment>)
    requires Shaped(g) && MeasuredPlan(g, plan) && n < |g| && CanReverse(g, n, plan[0].nodes[0])
    requires plan' == [Segment([n], 0)] + plan
    ensures MeasuredPlan(g, plan') && plan'[0].nodes[0] == n
    ensures Nodes(plan') == [n] + Nodes(plan) && TotalDist(plan') == TotalDist(plan)
  {
  }

  lemma {:induction false} ConsEdge(g: Track, n: nat, plan: seq<Segment>, plan': seq<Segment>)
    requires Shaped(g) && MeasuredPlan(g, plan) && n < |g| && HasEdge(g, n, plan[0].nodes[0])
    requires plan' == [Segment([n] + plan[0].nodes, plan[0].dist + EdgeLen(g, n, plan[0].nodes[0]))] + plan[1..]
    ensures MeasuredPlan(g, plan') && plan'[0].nodes[0] == n
    ensures Nodes(plan') == [n] + Nodes(plan)
    ensures TotalDist(plan') == EdgeLen(g, n, plan[0].nodes[0]) + TotalDist(plan)
  {
  }

  /** The part of the route rebuilt so far: it was finalised in order, so it never repeats
      a node, and it is exactly as long as the distances say. */
  ghost predicate Rebuilt(g: Track, blocked: set<nat>, dist: map<nat, int>, rank: map<nat, nat>, end: nat, p: seq<nat>)
    requires Shaped(g)
  {
    && IsRoute(g, blocked, p) && Last(p) == end
    && p[0] in dist && end in dist
    && RouteLen(g, blocked, p) + dist[p[0]] == dist[end]
    && (forall i | 0 <= i < |p| :: Turn(rank, p[0]) <= Turn(rank, p[i]))
    && NoRepeat(p)
  }

  lemma {:induction false} ConsRebuilt(g: Track, blocked: set<nat>, dist: map<nat, int>, rank: map<nat, nat>,
                                       end: nat, n: nat, p: seq<nat>)
    requires Shaped(g) && Rebuilt(g, blocked, dist, rank, end, p)
    requires Link(g, blocked, dist, rank, n, p[0])
    ensures Rebuilt(g, blocked, dist, rank, end, [n] + p)
  {
  }

  /** The segments as they stand while being built: the last one is still backwards. */
  function Forward(result: seq<Segment>, curr: nat): (forward: seq<Segment>)
    requires |result| > 0
    ensures |forward| == |result|
    ensures forward[0].nodes != [] && forward[0].nodes[0] == curr
  {
    var k := |result| - 1;
    [Segment([curr] + Reverse(result[k].nodes), result[k].dist)] + Reverse(result[..k])
  }

  lemma {:induction false} ReverseSnoc<T>(s: seq<T>, x: T)
    ensures Reverse(s + [x]) == [x] + Reverse(s)
  {
  }

  /** `curr` closes the segment being built, and the next one begins. */
  function Turned(result: seq<Segment>, curr: nat): (r: seq<Segment>)
    requires |result| > 0
    ensures |r| > 0
  {
    var k := |result| - 1;
    result[k := Segment(Reverse(result[k].nodes + [curr]), result[k].dist)] + [Segment([], 0)]
  }

  /** `curr` joins the segment being built, which gets longer by the edge before it. */
  function Advanced(result: seq<Segment>, curr: nat, len: int): (r: seq<Segment>)
    requires |result| > 0
    ensures |r| > 0
  {
    var k := |result| - 1;
    result[k := Segment(result[k].nodes + [curr], result[k].dist + len)]
  }

  /** `curr` closes the last segment, and the segments are put in order of travel. */
  function Finished(result: seq<Segment>, curr: nat): (r: seq<Segment>)
    requires |result| > 0
  {
    var k := |result| - 1;
    Reverse(result[k := Segment(Reverse(result[k].nodes + [curr]), result[k].dist)])
  }

  lemma {:induction false} ForwardTurn(result: seq<Segment>, curr: nat, last: nat)
    requires |result| > 0
    ensures Forward(Turned(result, curr), last) == [Segment([last], 0)] + Forward(result, curr)
  {
    var k := |result| - 1;
    var cut := Segment(Reverse(result[k].nodes + [curr]), result[k].dist);
    ReverseSnoc(result[k].nodes, curr);
    ReverseSnoc(result[..k], cut);
    assert Turned(result, curr)[..k + 1] == result[..k] + [cut];
    assert [last] + Reverse<nat>([]) == [last];
  }

  lemma {:induction false} ForwardEdge(result: seq<Segment>, curr: nat, last: nat, len: int)
    requires |result| > 0
    ensures var forward := Forward(result, curr);
      Forward(Advanced(result, curr, len), last)
      == [Segment([last] + forward[0].nodes, forward[0].dist + len)] + forward[1..]
  {
    var k := |result| - 1;
    ReverseSnoc(result[k].nodes, curr);
    assert Advanced(result, curr, len)[..k] == result[..k];
  }

  lemma {:induction false} ForwardEnd(result: seq<Segment>, curr: nat)
    requires |result| > 0
    ensures Finished(result, curr) == Forward(result, curr)
  {
    var k := |result| - 1;
    var cut := Segment(Reverse(result[k].nodes + [curr]), result[k].dist);
    ReverseSnoc(result[k].nodes, curr);
    ReverseSnoc(result[..k], cut);
    assert result[k := cut] == result[..k] + [cut];
  }

  /** The loop invariant: `forward` is the route from `curr` on, as segments. */
  ghost predicate Progress(g: Track, blocked: set<nat>, dist: map<nat, int>, rank: map<nat, nat>, end: nat,
                           forward: seq<Segment>, curr: nat)
    requires Shaped(g)
  {
    && curr < |g| && curr in dist && end in dist
    && MeasuredPlan(g, forward) && forward[0].nodes[0] == curr
    && Nodes(forward) != [] && Nodes(forward)[0] == curr
    && Rebuilt(g, blocked, dist, rank, end, Nodes(forward))
    && TotalDist(forward) + dist[curr] == dist[end]
  }

  lemma {:induction false} ProgressStarts(g: Track, blocked: set<nat>, dist: map<nat, int>, rank: map<nat, nat>,
                                          end: nat)
    requires Shaped(g) && end < |g| && end in dist
    ensures Progress(g, blocked, dist, rank, end, Forward([Segment([], 0)], end), end)
  {
  }

  /** What one step back along `prev` finds. */
  lemma {:induction false} StepBack(g: Track, blocked: set<nat>, start: nat, dist: map<nat, int>, prev: map<nat, nat>,
                                    rank: map<nat, nat>,
                                    curr: nat)
    requires WellFormed(g) && Tree(g, blocked, start, dist, prev, rank)
    requires curr in prev
    ensures var last := prev[curr];
      && curr < |g| && Link(g, blocked, dist, rank, last, curr)
      && last < |g| && Turn(rank, last) < Turn(rank, curr)
      && (if g[curr].reverse == last
          then CanReverse(g, last, curr) && dist[curr] == dist[last]
          else HasEdge(g, last, curr) && dist[curr] == dist[last] + EdgeLen(g, last, curr)
               && (g[last].kind.Branch? || g[last].edge[DIR_AHEAD].Edge?)
               && StepLen(g, last, curr) == EdgeLen(g, last, curr))
  {
    var last := prev[curr];
    assert Link(g, blocked, dist, rank, last, curr);
    assert MirrorOk(g, curr) && MirrorOk(g, last) && ArcsOk(g, last);
  }

  lemma {:induction false} ProgressTurns(g: Track, blocked: set<nat>, start: nat, dist: map<nat, int>,
                                         prev: map<nat, nat>, rank: map<nat, nat>,
                                         end: nat, result: seq<Segment>, curr: nat)
    requires WellFormed(g) && Tree(g, blocked, start, dist, prev, rank) && |result| > 0
    requires Progress(g, blocked, dist, rank, end, Forward(result, curr), curr)
    requires curr in prev && g[curr].reverse == prev[curr]
    ensures Progress(g, blocked, dist, rank, end, Forward(Turned(result, curr), prev[curr]), prev[curr])
  {
    hide Tree, Rebuilt, MeasuredPlan, Turned;
    var last, forward := prev[curr], Forward(result, curr);
    StepBack(g, blocked, start, dist, prev, rank, curr);
    ConsRebuilt(g, blocked, dist, rank, end, last, Nodes(forward));
    ForwardTurn(result, curr, last);
    ConsTurn(g, last, forward, [Segment([last], 0)] + forward);
  }

  lemma {:induction false} ProgressAdvances(g: Track, blocked: set<nat>, start: nat, dist: map<nat, int>,
                                            prev: map<nat, nat>, rank: map<nat, nat>,
                                            end: nat, result: seq<Segment>, curr: nat, len: int)
    requires WellFormed(g) && Tree(g, blocked, start, dist, prev, rank) && |result| > 0
    requires Progress(g, blocked, dist, rank, end, Forward(result, curr), curr)
    requires curr in prev && g[curr].reverse != prev[curr] && prev[curr] < |g|
    requires HasEdge(g, prev[curr], curr) && len == EdgeLen(g, prev[curr], curr)
    ensures Progress(g, blocked, dist, rank, end, Forward(Advanced(result, curr, len), prev[curr]), prev[curr])
  {
    hide Tree, Rebuilt, MeasuredPlan, Advanced;
    var last, forward := prev[curr], Forward(result, curr);
    StepBack(g, blocked, start, dist, prev, rank, curr);
    ConsRebuilt(g, blocked, dist, rank, end, last, Nodes(forward));
    ForwardEdge(result, curr, last, len);
    ConsEdge(g, last, forward, [Segment([last] + forward[0].nodes, forward[0].dist + len)] + forward[1..]);
  }

  /** Following `prev` back from `end`. */
  method Reconstruct(g: Track, start: nat, end: nat, ghost blocked: set<nat>,
                     ghost dist: map<nat, int>, prev: map<nat, nat>, ghost rank: map<nat, nat>)
    returns (plan: seq<Segment>)
    requires WellFormed(g) && start < |g| && end < |g|
    requires Tree(g, blocked, start, dist, prev, rank) && end in dist
    ensures Progress(g, blocked, dist, rank, end, plan, start)
  {
    assert Shaped(g) && prev.Keys == dist.Keys - {start};
    hide Tree, Progress, WellFormed, Forward, Link, StepLen, EdgeLen, HasEdge, CanReverse, Turn, Turned, Advanced,
      Finished;
    var result := [Segment([], 0)];
    var curr := end;
    ProgressStarts(g, blocked, dist, rank, end);
    while curr != start
      invariant |result| > 0
      invariant curr in dist && curr < |g|
      invariant Progress(g, blocked, dist, rank, end, Forward(result, curr), curr)
      decreases Turn(rank, curr)
    {
      StepBack(g, blocked, start, dist, prev, rank, curr);
      var last := prev[curr];
      if g[curr].reverse == last {
        ProgressTurns(g, blocked, start, dist, prev, rank, end, result, curr);
        result := Turned(result, curr);
      } else {
        var len := StepLen(g, last, curr);
        ProgressAdvances(g, blocked, start, dist, prev, rank, end, result, curr, len);
        result := Advanced(result, curr, len);
      }
      curr := last;
    }
    ForwardEnd(result, curr);
    plan := Finished(result, curr);
  }

  // ----- The planner -----

  /** What one segment asks of the train: its walk, less what the train has already done of
      the first, plus how far to go past the end of the last. */
  ghost predicate Offset(g: Track, plan: seq<Segment>, startOffset: int, endOffset: int)
    requires Shaped(g) && IsPlan(g, plan)
  {
    forall k | 0 <= k < |plan| ::
      plan[k].dist == WalkLen(g, plan[k].nodes)
                      - (if k == 0 then startOffset else 0)
                      + (if k == |plan| - 1 then endOffset else 0)
  }

  function Shifted(plan: seq<Segment>, k: nat, shift: int): seq<Segment>
    requires k < |plan|
  {
    plan[k := Segment(plan[k].nodes, plan[k].dist + shift)]
  }

  lemma {:induction false} ShiftKeeps(plan: seq<Segment>, k: nat, shift: int)
    requires k < |plan|
    ensures Nodes(Shifted(plan, k, shift)) == Nodes(plan)
    ensures TotalDist(Shifted(plan, k, shift)) == TotalDist(plan) + shift
  {
    var shifted := Shifted(plan, k, shift);
    if k == 0 {
      assert shifted[1..] == plan[1..];
    } else {
      assert shifted[1..] == Shifted(plan[1..], k - 1, shift);
      ShiftKeeps(plan[1..], k - 1, shift);
    }
  }

  lemma {:induction false} OffsetsOk(g: Track, plan: seq<Segment>, startOffset: int, endOffset: int,
                                     result: seq<Segment>)
    requires Shaped(g) && MeasuredPlan(g, plan)
    requires result == Shifted(Shifted(plan, 0, -startOffset), |plan| - 1, endOffset)
    ensures IsPlan(g, result) && Offset(g, result, startOffset, endOffset)
    ensures Nodes(result) == Nodes(plan)
    ensures TotalDist(result) == TotalDist(plan) - startOffset + endOffset
  {
    var shifted := Shifted(plan, 0, -startOffset);
    ShiftKeeps(plan, 0, -startOffset);
    ShiftKeeps(shifted, |plan| - 1, endOffset);
    forall k | 0 <= k < |result|
      ensures IsWalk(g, result[k].nodes) && result[k].nodes == plan[k].nodes
      ensures k < |result| - 1 ==> CanReverse(g, Last(result[k].nodes), result[k + 1].nodes[0])
    {
      assert k < |plan| - 1 ==> CanReverse(g, Last(plan[k].nodes), plan[k + 1].nodes[0]);
    }
  }

  /** What a found plan promises: it leads from `start` to `end` leaving no blocked node,
      no such route is shorter, and its segments add up to it. */
  ghost predicate GoodPlan(g: Track, blocked: set<nat>, start: nat, end: nat, startOffset: int, endOffset: int,
                           plan: seq<Segment>)
    requires Shaped(g)
  {
    && IsPlan(g, plan)
    && Offset(g, plan, startOffset, endOffset)
    && var p := Nodes(plan);
    && RouteBetween(g, blocked, start, end, p)
    && Shortest(g, blocked, start, end, RouteLen(g, blocked, p))
    && NoRepeat(p)
    && TotalDist(plan) == RouteLen(g, blocked, p) - startOffset + endOffset
  }

  lemma {:induction false} PlanIsGood(g: Track, blocked: set<nat>, start: nat, end: nat, startOffset: int,
                                      endOffset: int,
                                      dist: map<nat, int>, rank: map<nat, nat>, plan: seq<Segment>)
    requires Shaped(g) && start in dist && dist[start] == 0 && end in dist
      && Shortest(g, blocked, start, end, dist[end])
    requires Progress(g, blocked, dist, rank, end, plan, start)
    ensures GoodPlan(g, blocked, start, end, startOffset, endOffset,
                     Shifted(Shifted(plan, 0, -startOffset), |plan| - 1, endOffset))
  {
    var result := Shifted(Shifted(plan, 0, -startOffset), |plan| - 1, endOffset);
    OffsetsOk(g, plan, startOffset, endOffset, result);
    assert RouteBetween(g, blocked, start, end, Nodes(plan));
    hide Shifted, Shortest, Shaped, Offset, IsPlan, Nodes, TotalDist, IsRoute, RouteLen, NoRepeat;
  }

  /** A plan is found exactly when some route leaves no blocked node, and the plan is one
      of the shortest such routes. */
  method FindPath(g: Track, start: nat, end: nat, startOffset: int, endOffset: int, blocked: set<nat>)
    returns (r: Option<seq<Segment>>)
    requires WellFormed(g) && start < |g| && end < |g|
    ensures r.None? <==> Unreachable(g, blocked, start, end)
    ensures r.Some? ==> GoodPlan(g, blocked, start, end, startOffset, endOffset, r.value)
  {
    var dist, prev;
    ghost var rank;
    dist, prev, rank := Search(g, start, end, blocked);
    if end !in dist {
      return None;
    }
    assert Shaped(g) && start in dist && dist[start] == 0;
    hide WellFormed, Shaped, Tree, GoodPlan, Shortest, Unreachable;
    var result := Reconstruct(g, start, end, blocked, dist, prev, rank);
    PlanIsGood(g, blocked, start, end, startOffset, endOffset, dist, rank, result);
    result := Shifted(result, 0, -startOffset);
    result := Shifted(result, |result| - 1, endOffset);
    return Some(result);
  }
}
