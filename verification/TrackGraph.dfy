/** The track as an immutable adjacency list (`track_node.hpp`), what makes such a list a
    possible layout, and the two notions the planner is judged by: routes and track walks.
    Nodes are named by their index in the node array. */
module TrackGraph {

  const TRACK_MAX: nat := 144
  const DIR_AHEAD: nat := 0
  const DIR_STRAIGHT: nat := 0
  const DIR_CURVED: nat := 1

  datatype NodeType = Sensor | Branch | Merge | Enter | Exit

  datatype Edge = NoEdge | Edge(dest: nat, dist: int)

  datatype Node = Node(kind: NodeType, num: int, reverse: nat, edge: seq<Edge>)

  datatype SwitchDir = S | C | NONE

  type Track = seq<Node>

  function Mirrored(k: NodeType): NodeType {
    match k
    case Sensor => Sensor
    case Branch => Merge
    case Merge => Branch
    case Enter => Exit
    case Exit => Enter
  }

  /** The slots every node must have before anything else about it makes sense. */
  ghost predicate Shaped(g: Track) {
    forall n | 0 <= n < |g| ::
      && |g[n].edge| == 2
      && g[n].reverse < |g|
      && (forall i | 0 <= i < 2 :: g[n].edge[i].Edge? ==> g[n].edge[i].dest < |g|)
  }

  predicate Leads(g: Track, a: nat, i: nat, b: nat)
    requires Shaped(g) && a < |g| && i < 2
  {
    g[a].edge[i].Edge? && g[a].edge[i].dest == b
  }

  predicate HasEdge(g: Track, a: nat, b: nat)
    requires Shaped(g) && a < |g|
  {
    Leads(g, a, DIR_STRAIGHT, b) || Leads(g, a, DIR_CURVED, b)
  }

  function EdgeLen(g: Track, a: nat, b: nat): int
    requires Shaped(g) && a < |g| && HasEdge(g, a, b)
  {
    if Leads(g, a, DIR_STRAIGHT, b) then g[a].edge[DIR_STRAIGHT].dist else g[a].edge[DIR_CURVED].dist
  }

  /** Sensor 1 arc, branch 2, merge and enter 1, exit 0; lengths are not negative, and
      positive out of sensors; the two ways out of a branch differ. */
  ghost predicate ArcsOk(g: Track, n: nat)
    requires Shaped(g) && n < |g|
  {
    var e := g[n].edge;
    && (e[DIR_AHEAD].Edge? <==> !g[n].kind.Exit?)
    && (e[DIR_CURVED].Edge? <==> g[n].kind.Branch?)
    && (forall i | 0 <= i < 2 :: e[i].Edge? ==> e[i].dist >= 0 && (g[n].kind.Sensor? ==> e[i].dist > 0))
    && (g[n].kind.Branch? ==> e[DIR_STRAIGHT].dest != e[DIR_CURVED].dest)
  }

  /** Every place is two nodes, one per direction of travel, and every edge can be
      travelled backwards. */
  ghost predicate MirrorOk(g: Track, n: nat)
    requires Shaped(g) && n < |g|
  {
    var r := g[n].reverse;
    && r != n
    && g[r].reverse == n
    && g[r].kind == Mirrored(g[n].kind)
    && (forall m: nat | m < |g| && HasEdge(g, n, m) ::
          && m != r
          && HasEdge(g, g[m].reverse, r)
          && EdgeLen(g, g[m].reverse, r) == EdgeLen(g, n, m))
  }

  /** A numbering that falls along every edge between two nodes that are not sensors, that
      is, no cycle avoids the sensors. */
  ghost predicate Descends(g: Track, rank: seq<nat>)
    requires Shaped(g)
  {
    && |rank| == |g|
    && forall n: nat, m: nat | n < |g| && m < |g| && HasEdge(g, n, m) && !g[n].kind.Sensor? && !g[m].kind.Sensor? ::
         rank[m] < rank[n]
  }

  ghost predicate WellFormed(g: Track) {
    && |g| <= TRACK_MAX
    && Shaped(g)
    && (forall n | 0 <= n < |g| :: ArcsOk(g, n) && MirrorOk(g, n))
    && exists rank :: Descends(g, rank)
  }

  // ----- Routes: what a train may be asked to do -----

  /** A train may turn round only on a sensor. */
  predicate CanReverse(g: Track, a: nat, b: nat)
    requires Shaped(g) && a < |g|
  {
    g[a].kind.Sensor? && g[a].reverse == b
  }

  predicate Arc(g: Track, a: nat, b: nat)
    requires Shaped(g) && a < |g|
  {
    HasEdge(g, a, b) || CanReverse(g, a, b)
  }

  function ArcCost(g: Track, a: nat, b: nat): int
    requires Shaped(g) && a < |g| && Arc(g, a, b)
  {
    if HasEdge(g, a, b) then EdgeLen(g, a, b) else 0
  }

  function Last(p: seq<nat>): nat {
    if p == [] then 0 else p[|p| - 1]
  }

  predicate InTrack(g: Track, p: seq<nat>) {
    forall i | 0 <= i < |p| :: p[i] < |g|
  }

  /** Travel along `p`, leaving no blocked node: only the last node may be blocked. */
  ghost predicate IsRoute(g: Track, blocked: set<nat>, p: seq<nat>)
    requires Shaped(g)
  {
    && |p| > 0
    && InTrack(g, p)
    && forall i | 0 <= i < |p| - 1 :: p[i] !in blocked && Arc(g, p[i], p[i + 1])
  }

  ghost predicate RouteBetween(g: Track, blocked: set<nat>, start: nat, end: nat, p: seq<nat>)
    requires Shaped(g)
  {
    IsRoute(g, blocked, p) && p[0] == start && p[|p| - 1] == end
  }

  ghost function RouteLen(g: Track, blocked: set<nat>, p: seq<nat>): int
    requires Shaped(g) && IsRoute(g, blocked, p)
    decreases |p|
  {
    if |p| == 1 then 0
    else
      assert IsRoute(g, blocked, p[1..]);
      ArcCost(g, p[0], p[1]) + RouteLen(g, blocked, p[1..])
  }

  lemma {:induction false} ArcCostNonNegative(g: Track, a: nat, b: nat)
    requires WellFormed(g) && a < |g| && Arc(g, a, b)
    ensures ArcCost(g, a, b) >= 0
  {
    assert ArcsOk(g, a);
  }

  // ----- Track walks: travel without reversing -----

  ghost predicate IsWalk(g: Track, p: seq<nat>)
    requires Shaped(g)
  {
    && |p| > 0
    && InTrack(g, p)
    && forall i | 0 <= i < |p| - 1 :: HasEdge(g, p[i], p[i + 1])
  }

  ghost function WalkLen(g: Track, p: seq<nat>): int
    requires Shaped(g) && IsWalk(g, p)
    decreases |p|
  {
    if |p| == 1 then 0
    else
      assert IsWalk(g, p[1..]);
      EdgeLen(g, p[0], p[1]) + WalkLen(g, p[1..])
  }

  /** Given a switch and a node next to it, which way must the switch be set?
      The answer is the way whose edge leads there. */
  function GetSwitchDir(g: Track, sw: nat, next: nat): (d: SwitchDir)
    requires Shaped(g) && sw < |g|
    ensures d == S || d == C
    ensures HasEdge(g, sw, next) ==> Leads(g, sw, if d == S then DIR_STRAIGHT else DIR_CURVED, next)
    ensures Leads(g, sw, DIR_STRAIGHT, next) ==> d == S
  {
    if Leads(g, sw, DIR_STRAIGHT, next) then S else C
  }

  function EdgeIndex(d: SwitchDir): nat {
    if d == S then DIR_STRAIGHT else DIR_CURVED
  }

  /** The length of the edge from `last` to `curr`, found the way the planner and the walks do. */
  function StepLen(g: Track, last: nat, curr: nat): int
    requires Shaped(g) && last < |g|
    requires if g[last].kind.Branch? then HasEdge(g, last, curr) else g[last].edge[DIR_AHEAD].Edge?
  {
    if g[last].kind.Branch? then g[last].edge[EdgeIndex(GetSwitchDir(g, last, curr))].dist
    else g[last].edge[DIR_AHEAD].dist
  }

  /** The first sensor of the segment at or after `x`, or its length. */
  function NextSensorIndex(g: Track, seg: seq<nat>, x: nat): (k: nat)
    requires InTrack(g, seg) && x <= |seg|
    ensures x <= k <= |seg| && (k < |seg| ==> g[seg[k]].kind.Sensor?)
    ensures forall m | x <= m < k :: !g[seg[m]].kind.Sensor?
    decreases |seg| - x
  {
    if x == |seg| || g[seg[x]].kind.Sensor? then x else NextSensorIndex(g, seg, x + 1)
  }

  // ----- A layout -----

  function Ahead(dest: nat, dist: int): (e: seq<Edge>)
    ensures |e| == 2 && e[0] == Edge(dest, dist) && e[1] == NoEdge
  {
    [Edge(dest, dist), NoEdge]
  }

  function Fork(straight: nat, dist0: int, curved: nat, dist1: int): (e: seq<Edge>)
    ensures |e| == 2 && e[0] == Edge(straight, dist0) && e[1] == Edge(curved, dist1)
  {
    [Edge(straight, dist0), Edge(curved, dist1)]
  }

  function DeadEnd(): (e: seq<Edge>)
    ensures |e| == 2 && e[0] == e[1] == NoEdge
  {
    [NoEdge, NoEdge]
  }

  /** A siding: an entrance, a sensor and a switch, and behind it two dead ends. A sensor and
      its reverse have numbers of their own; the two sides of a switch have the same. */
  ghost predicate IsSiding(g: Track) {
    && |g| == 10
    && g[0] == Node(Enter, 0, 1, Ahead(2, 100)) && g[1] == Node(Exit, 0, 0, DeadEnd())
    && g[2] == Node(Sensor, 0, 3, Ahead(4, 50)) && g[3] == Node(Sensor, 1, 2, Ahead(1, 100))
    && g[4] == Node(Branch, 14, 5, Fork(6, 200, 8, 300)) && g[5] == Node(Merge, 14, 4, Ahead(3, 50))
    && g[6] == Node(Exit, 1, 7, DeadEnd()) && g[7] == Node(Enter, 1, 6, Ahead(5, 200))
    && g[8] == Node(Exit, 2, 9, DeadEnd()) && g[9] == Node(Enter, 2, 8, Ahead(5, 300))
  }

  lemma {:induction false} SidingArcs(g: Track)
    requires IsSiding(g)
    ensures Shaped(g) && forall n | 0 <= n < |g| :: ArcsOk(g, n)
  {
    hide Ahead, Fork, DeadEnd;
  }

  lemma {:induction false} SidingMirrors(g: Track, n: nat)
    requires IsSiding(g) && Shaped(g) && n < |g|
    ensures MirrorOk(g, n)
  {
    hide Ahead, Fork, DeadEnd, Shaped;
  }

  lemma {:induction false} SidingDescends(g: Track)
    requires IsSiding(g) && Shaped(g)
    ensures Descends(g, [0, 0, 0, 0, 1, 0, 0, 1, 0, 1])
  {
    hide Ahead, Fork, DeadEnd, Shaped;
  }

  /** There are layouts whose sensors are numbered as the source numbers them: one side of a
      sensor has another number than the other. */
  lemma {:induction false} SensorsNumberedApart() returns (g: Track)
    ensures WellFormed(g) && |g| > 5 && g[2].kind.Sensor? && g[2].reverse == 3 && g[2].num == 0 && g[3].num == 1
    ensures g[4].kind.Branch? && g[4].reverse == 5 && g[4].num == g[5].num == 14
  {
    g := [Node(Enter, 0, 1, Ahead(2, 100)), Node(Exit, 0, 0, DeadEnd()),
          Node(Sensor, 0, 3, Ahead(4, 50)), Node(Sensor, 1, 2, Ahead(1, 100)),
          Node(Branch, 14, 5, Fork(6, 200, 8, 300)), Node(Merge, 14, 4, Ahead(3, 50)),
          Node(Exit, 1, 7, DeadEnd()), Node(Enter, 1, 6, Ahead(5, 200)),
          Node(Exit, 2, 9, DeadEnd()), Node(Enter, 2, 8, Ahead(5, 300))];
    assert IsSiding(g);
    hide IsSiding;
    SidingArcs(g);
    SidingDescends(g);
    forall n: nat | n < |g|
      ensures MirrorOk(g, n)
    {
      SidingMirrors(g, n);
    }
  }
}
