/** Where a train on the track meets its next sensors: `next_sensor`, the two versions of
    `walk_sensor`, and what happens to them when the train turns round. */
module Walks {
  import opened TrackGraph
  import opened Wrappers

  datatype Hit = Hit(sensor: nat, dist: int)

  type Switches = map<int, SwitchDir>

  /** Every switch of the track has a status. */
  ghost predicate Known(g: Track, sw: Switches) {
    forall n | 0 <= n < |g| && g[n].kind.Branch? :: g[n].num in sw
  }

  ghost function Rank(g: Track): seq<nat>
    requires WellFormed(g)
    ensures Descends(g, Rank(g))
  {
    var rank :| Descends(g, rank); rank
  }

  ghost function Height(g: Track, n: nat): nat
    requires WellFormed(g) && n < |g|
  {
    if g[n].kind.Sensor? then 0 else 1 + Rank(g)[n]
  }

  /** The way a train leaves a merge or a branch. */
  function WayOut(g: Track, sw: Switches, n: nat): nat
    requires n < |g| && (g[n].kind.Branch? ==> g[n].num in sw)
  {
    if g[n].kind.Branch? then EdgeIndex(sw[g[n].num]) else DIR_AHEAD
  }

  predicate Passable(g: Track, n: nat)
    requires n < |g|
  {
    g[n].kind.Merge? || g[n].kind.Branch?
  }

  lemma {:induction false} WayOutDescends(g: Track, sw: Switches, n: nat)
    requires WellFormed(g) && Known(g, sw) && n < |g| && Passable(g, n)
    ensures var e := g[n].edge[WayOut(g, sw, n)];
      e.Edge? && e.dest < |g| && e.dist >= 0 && Height(g, e.dest) < Height(g, n)
  {
    assert ArcsOk(g, n);
    assert HasEdge(g, n, g[n].edge[WayOut(g, sw, n)].dest);
  }

  /** The first sensor met from `n` on, `n` included. */
  function Follow(g: Track, sw: Switches, n: nat): Option<Hit>
    requires WellFormed(g) && Known(g, sw) && n < |g|
    decreases Height(g, n)
  {
    if g[n].kind.Sensor? then Some(Hit(n, 0))
    else if Passable(g, n) then
      WayOutDescends(g, sw, n);
      var e := g[n].edge[WayOut(g, sw, n)];
      match Follow(g, sw, e.dest)
      case Some(hit) => Some(Hit(hit.sensor, e.dist + hit.dist))
      case None => None
    else None
  }

  /** The first sensor met after leaving `n` ahead. */
  function Next(g: Track, sw: Switches, n: nat): Option<Hit>
    requires WellFormed(g) && Known(g, sw) && n < |g|
  {
    var e := g[n].edge[DIR_AHEAD];
    if e.NoEdge? then None
    else
      match Follow(g, sw, e.dest)
      case Some(hit) => Some(Hit(hit.sensor, e.dist + hit.dist))
      case None => None
  }

  method NextSensor(g: Track, currSensor: nat, switches: Switches) returns (r: Option<Hit>)
    requires WellFormed(g) && Known(g, switches) && currSensor < |g|
    ensures r == Next(g, switches, currSensor)
  {
    var edge := g[currSensor].edge[DIR_AHEAD];
    if edge.NoEdge? {
      return None;
    }
    var dist := edge.dist;
    var curr: nat := edge.dest;
    while true
      invariant curr < |g|
      invariant Next(g, switches, currSensor) ==
                match Follow(g, switches, curr)
                case Some(hit) => Some(Hit(hit.sensor, dist + hit.dist))
                case None => None
      decreases Height(g, curr)
    {
      match g[curr].kind
      case Sensor =>
        return Some(Hit(curr, dist));
      case Merge =>
        WayOutDescends(g, switches, curr);
        var e := g[curr].edge[DIR_AHEAD];
        dist, curr := dist + e.dist, e.dest;
      case Branch =>
        WayOutDescends(g, switches, curr);
        var dir := if switches[g[curr].num] == S then DIR_STRAIGHT else DIR_CURVED;
        var e := g[curr].edge[dir];
        dist, curr := dist + e.dist, e.dest;
      case _ =>
        return None;
    }
  }

  // ----- What the next sensor is, said with walks -----

  /** How far along the walk its `i`-th node is. */
  ghost function Odometer(g: Track, p: seq<nat>, i: nat): int
    requires Shaped(g) && IsWalk(g, p) && i < |p|
  {
    if i == 0 then 0 else Odometer(g, p, i - 1) + EdgeLen(g, p[i - 1], p[i])
  }

  /** The switches lead a train at `p[i]` to `p[i + 1]`: a branch set to `S` over its straight
      edge, one that is not over its curved edge. */
  ghost predicate GuidedAt(g: Track, sw: Switches, p: seq<nat>, i: nat)
    requires WellFormed(g) && Known(g, sw) && InTrack(g, p) && i < |p| - 1
  {
    && Passable(g, p[i])
    && (if g[p[i]].kind.Merge? then Leads(g, p[i], DIR_AHEAD, p[i + 1])
        else if sw[g[p[i]].num] == S then Leads(g, p[i], DIR_STRAIGHT, p[i + 1])
        else Leads(g, p[i], DIR_CURVED, p[i + 1]))
  }

  /** Along `p`, a train leaving `p[lo]` ahead is led by the switches to the sensor
      `p[hi]`, meeting none in between. */
  ghost predicate Led(g: Track, sw: Switches, p: seq<nat>, lo: nat, hi: nat)
    requires WellFormed(g) && Known(g, sw)
  {
    && IsWalk(g, p) && lo < hi < |p|
    && Leads(g, p[lo], DIR_AHEAD, p[lo + 1])
    && g[p[hi]].kind.Sensor?
    && forall i | lo < i < hi :: GuidedAt(g, sw, p, i)
  }

  lemma {:induction false} LeadsLen(g: Track, a: nat, i: nat, b: nat)
    requires WellFormed(g) && a < |g| && i < 2 && Leads(g, a, i, b)
    ensures EdgeLen(g, a, b) == g[a].edge[i].dist
  {
    assert ArcsOk(g, a);
  }

  lemma {:induction false} LedFollow(g: Track, sw: Switches, p: seq<nat>, lo: nat, hi: nat, i: nat)
    requires WellFormed(g) && Known(g, sw) && Led(g, sw, p, lo, hi) && lo < i <= hi
    ensures Follow(g, sw, p[i]) == Some(Hit(p[hi], Odometer(g, p, hi) - Odometer(g, p, i)))
    decreases hi - i
  {
    hide ArcsOk, MirrorOk, Descends;
    if i == hi {
    } else {
      assert GuidedAt(g, sw, p, i);
      LedFollow(g, sw, p, lo, hi, i + 1);
      LeadsLen(g, p[i], WayOut(g, sw, p[i]), p[i + 1]);
    }
  }

  /** A walk that the switches lead along ends at the next sensor, at the right distance. */
  lemma {:induction false} LedNext(g: Track, sw: Switches, p: seq<nat>, lo: nat, hi: nat)
    requires WellFormed(g) && Known(g, sw) && Led(g, sw, p, lo, hi)
    ensures Next(g, sw, p[lo]) == Some(Hit(p[hi], Odometer(g, p, hi) - Odometer(g, p, lo)))
  {
    LedFollow(g, sw, p, lo, hi, lo + 1);
    LeadsLen(g, p[lo], DIR_AHEAD, p[lo + 1]);
  }

  ghost predicate SensorWalk(g: Track, sw: Switches, p: seq<nat>, n: nat, hit: Hit)
    requires WellFormed(g) && Known(g, sw)
  {
    && |p| > 1 && Led(g, sw, p, 0, |p| - 1)
    && p[0] == n && hit == Hit(p[|p| - 1], Odometer(g, p, |p| - 1))
  }

  lemma {:induction false} FollowWalk(g: Track, sw: Switches, p: seq<nat>) returns (q: seq<nat>)
    requires WellFormed(g) && Known(g, sw) && IsWalk(g, p) && |p| > 1
    requires Leads(g, p[0], DIR_AHEAD, p[1])
    requires forall i | 0 < i < |p| - 1 :: GuidedAt(g, sw, p, i)
    requires Follow(g, sw, p[|p| - 1]).Some?
    ensures p <= q && Led(g, sw, q, 0, |q| - 1)
    decreases Height(g, p[|p| - 1])
  {
    assert Shaped(g);
    hide WellFormed, Known, Odometer;
    var n := p[|p| - 1];
    if g[n].kind.Sensor? {
      q := p;
    } else {
      WayOutDescends(g, sw, n);
      var longer := p + [g[n].edge[WayOut(g, sw, n)].dest];
      forall i | 0 < i < |longer| - 1
        ensures GuidedAt(g, sw, longer, i)
      {
        assert i < |p| - 1 ==> GuidedAt(g, sw, p, i);
      }
      q := FollowWalk(g, sw, longer);
    }
  }

  /** `next_sensor` answers with a sensor and a distance exactly when a walk that follows
      the switches first meets that sensor, that far ahead. */
  lemma {:induction false} NextIsFirstSensorAhead(g: Track, sw: Switches, n: nat, hit: Hit)
    requires WellFormed(g) && Known(g, sw) && n < |g|
    ensures Next(g, sw, n) == Some(hit) <==> exists p :: SensorWalk(g, sw, p, n, hit)
  {
    if Next(g, sw, n) == Some(hit) {
      var p := [n, g[n].edge[DIR_AHEAD].dest];
      var q := FollowWalk(g, sw, p);
      LedNext(g, sw, q, 0, |q| - 1);
      assert SensorWalk(g, sw, q, n, hit);
    }
    if p :| SensorWalk(g, sw, p, n, hit) {
      LedNext(g, sw, p, 0, |p| - 1);
    }
  }

  lemma {:induction false} FollowNonNegative(g: Track, sw: Switches, n: nat)
    requires WellFormed(g) && Known(g, sw) && n < |g| && Follow(g, sw, n).Some?
    ensures var hit := Follow(g, sw, n).value;
      hit.dist >= 0 && hit.sensor < |g| && g[hit.sensor].kind.Sensor?
    decreases Height(g, n)
  {
    if g[n].kind.Sensor? {
    } else {
      WayOutDescends(g, sw, n);
      FollowNonNegative(g, sw, g[n].edge[WayOut(g, sw, n)].dest);
    }
  }

  /** From a sensor, the next one is some way off. */
  lemma {:induction false} NextProgress(g: Track, sw: Switches, n: nat)
    requires WellFormed(g) && Known(g, sw) && n < |g| && Next(g, sw, n).Some?
    ensures var hit := Next(g, sw, n).value;
      && hit.dist >= 0 && hit.sensor < |g| && g[hit.sensor].kind.Sensor?
      && (g[n].kind.Sensor? ==> hit.dist > 0)
  {
    assert ArcsOk(g, n);
    FollowNonNegative(g, sw, g[n].edge[DIR_AHEAD].dest);
  }

  // ----- Walking sensors -----

  /** The sensors met after `n` until `remain` is covered or there is none ahead. */
  ghost function Onward(g: Track, sw: Switches, n: nat, remain: int): (r: seq<nat>)
    requires WellFormed(g) && Known(g, sw) && n < |g|
    ensures InTrack(g, r)
    decreases if g[n].kind.Sensor? then 0 else 1, if remain > 0 then remain else 0
  {
    if remain <= 0 then []
    else
      match Next(g, sw, n)
      case None => []
      case Some(hit) =>
        NextProgress(g, sw, n);
        [hit.sensor] + Onward(g, sw, hit.sensor, remain - hit.dist)
  }

  /** The walk from `n`, `n` included. */
  ghost function FreeWalk(g: Track, sw: Switches, n: nat, remain: int): (r: seq<nat>)
    requires WellFormed(g) && Known(g, sw) && n < |g|
  {
    [n] + Onward(g, sw, n, remain)
  }

  ghost predicate StepsFrom(g: Track, sw: Switches, a: nat, b: nat)
    requires WellFormed(g) && Known(g, sw)
  {
    a < |g| && Next(g, sw, a).Some? && Next(g, sw, a).value.sensor == b
  }

  ghost predicate SensorSteps(g: Track, sw: Switches, r: seq<nat>)
    requires WellFormed(g) && Known(g, sw)
  {
    r != [] && InTrack(g, r) && forall k | 0 <= k < |r| - 1 :: StepsFrom(g, sw, r[k], r[k + 1])
  }

  /** How far the first `i` steps from sensor to sensor take the train. */
  ghost function Covered(g: Track, sw: Switches, r: seq<nat>, i: nat): int
    requires WellFormed(g) && Known(g, sw) && SensorSteps(g, sw, r) && i < |r|
  {
    if i == 0 then 0
    else
      assert StepsFrom(g, sw, r[0], r[1]);
      Next(g, sw, r[0]).value.dist + Covered(g, sw, r[1..], i - 1)
  }

  ghost predicate StopsRight(g: Track, sw: Switches, r: seq<nat>, remain: int)
    requires WellFormed(g) && Known(g, sw)
  {
    && SensorSteps(g, sw, r)
    && (forall k | 0 <= k < |r| - 1 :: Covered(g, sw, r, k) < remain)
    && (Covered(g, sw, r, |r| - 1) >= remain || Next(g, sw, r[|r| - 1]).None?)
  }

  lemma {:induction false} StopsRightAfter(g: Track, sw: Switches, n: nat, remain: int, rest: seq<nat>)
    requires WellFormed(g) && Known(g, sw) && n < |g| && remain > 0 && Next(g, sw, n).Some?
    requires var hit := Next(g, sw, n).value;
      StopsRight(g, sw, rest, remain - hit.dist) && rest[0] == hit.sensor
    ensures StopsRight(g, sw, [n] + rest, remain)
  {
    hide WellFormed, Known, Next;
    var hit, r := Next(g, sw, n).value, [n] + rest;
    assert r[1..] == rest;
    forall k | 0 <= k < |r| - 1
      ensures StepsFrom(g, sw, r[k], r[k + 1])
    {
      assert k > 0 ==> StepsFrom(g, sw, rest[k - 1], rest[k - 1 + 1]);
    }
    assert forall k | 0 < k < |r| :: Covered(g, sw, r, k) == hit.dist + Covered(g, sw, rest, k - 1);
  }

  lemma {:induction false} FreeWalkEnds(g: Track, sw: Switches, n: nat, remain: int)
    requires WellFormed(g) && Known(g, sw) && n < |g| && (remain <= 0 || Next(g, sw, n).None?)
    ensures StopsRight(g, sw, FreeWalk(g, sw, n, remain), remain)
  {
    hide WellFormed, Known, Next;
  }

  lemma {:induction false} FreeWalkOn(g: Track, sw: Switches, n: nat, remain: int, hit: Hit)
    requires WellFormed(g) && Known(g, sw) && n < |g| && remain > 0 && Next(g, sw, n) == Some(hit) && hit.sensor < |g|
    ensures FreeWalk(g, sw, n, remain) == [n] + FreeWalk(g, sw, hit.sensor, remain - hit.dist)
  {
    hide WellFormed, Known, Next;
  }

  /** The walk ends at the first sensor that covers the distance, or where the track does. */
  lemma {:induction false} FreeWalkStops(g: Track, sw: Switches, n: nat, remain: int)
    requires WellFormed(g) && Known(g, sw) && n < |g|
    ensures StopsRight(g, sw, FreeWalk(g, sw, n, remain), remain)
    decreases if g[n].kind.Sensor? then 0 else 1, if remain > 0 then remain else 0
  {
    hide WellFormed, Known, Next, StopsRight, Onward;
    if remain <= 0 || Next(g, sw, n).None? {
      FreeWalkEnds(g, sw, n, remain);
    } else {
      var hit := Next(g, sw, n).value;
      NextProgress(g, sw, n);
      FreeWalkStops(g, sw, hit.sensor, remain - hit.dist);
      StopsRightAfter(g, sw, n, remain, FreeWalk(g, sw, hit.sensor, remain - hit.dist));
      FreeWalkOn(g, sw, n, remain, hit);
    }
  }

  lemma {:induction false} OnwardStep(g: Track, sw: Switches, walked: seq<nat>, n: nat, remain: int, hit: Hit)
    requires WellFormed(g) && Known(g, sw) && n < |g| && remain > 0 && Next(g, sw, n) == Some(hit) && hit.sensor < |g|
    ensures walked + Onward(g, sw, n, remain) == walked + [hit.sensor] + Onward(g, sw, hit.sensor, remain - hit.dist)
  {
  }

  lemma {:induction false} OnwardEnds(g: Track, sw: Switches, walked: seq<nat>, n: nat, remain: int)
    requires WellFormed(g) && Known(g, sw) && n < |g| && (remain <= 0 || Next(g, sw, n).None?)
    ensures walked + Onward(g, sw, n, remain) == walked
  {
  }

  /** The loop that follows the switches, on from the sensors walked so far. */
  method WalkOn(g: Track, walked: seq<nat>, toCover: int, switches: Switches) returns (result: seq<nat>)
    requires WellFormed(g) && Known(g, switches) && walked != [] && Last(walked) < |g|
    ensures result == walked + Onward(g, switches, Last(walked), toCover)
  {
    hide WellFormed, Known, Next, Onward;
    result := walked;
    var remain := toCover;
    ghost var goal := walked + Onward(g, switches, Last(walked), toCover);
    while remain > 0
      invariant result != [] && Last(result) < |g|
      invariant goal == result + Onward(g, switches, Last(result), remain)
      decreases if g[Last(result)].kind.Sensor? then 0 else 1, remain
    {
      var next := NextSensor(g, Last(result), switches);
      if next.None? {
        break;
      }
      NextProgress(g, switches, Last(result));
      OnwardStep(g, switches, result, Last(result), remain, next.value);
      result := result + [next.value.sensor];
      remain := remain - next.value.dist;
    }
    OnwardEnds(g, switches, result, Last(result), remain);
  }

  /** `walk_sensor` without a path. */
  method WalkSensor(g: Track, node: nat, offset: int, dist: int, switches: Switches) returns (result: seq<nat>)
    requires WellFormed(g) && Known(g, switches) && node < |g|
    ensures result == FreeWalk(g, switches, node, dist + offset)
  {
    result := WalkOn(g, [node], dist + offset, switches);
  }

  /** The sensors among `seg[lo..hi]`, in order. */
  ghost function SensorsIn(g: Track, seg: seq<nat>, lo: nat, hi: nat): seq<nat>
    requires InTrack(g, seg) && hi <= |seg|
  {
    if hi <= lo then []
    else SensorsIn(g, seg, lo, hi - 1) + (if g[seg[hi - 1]].kind.Sensor? then [seg[hi - 1]] else [])
  }

  /** From `seg[lo]` to `seg[hi]`, every branch is set the way the path goes. */
  ghost predicate SetBetween(g: Track, sw: Switches, seg: seq<nat>, lo: nat, hi: nat)
    requires WellFormed(g) && Known(g, sw) && IsWalk(g, seg) && hi < |seg|
  {
    forall i | lo <= i < hi && g[seg[i]].kind.Branch? :: Leads(g, seg[i], WayOut(g, sw, seg[i]), seg[i + 1])
  }

  /** From `seg[j]` on, every branch is. */
  ghost predicate SetForPath(g: Track, sw: Switches, seg: seq<nat>, j: nat)
    requires WellFormed(g) && Known(g, sw) && IsWalk(g, seg)
  {
    SetBetween(g, sw, seg, j, |seg| - 1)
  }

  /** A path whose branches before its next sensor are set leads from `seg[s]` to that sensor. */
  lemma {:induction false} PathLeads(g: Track, sw: Switches, seg: seq<nat>, s: nat, i: nat)
    requires WellFormed(g) && Known(g, sw) && IsWalk(g, seg)
    requires s < i < |seg| && g[seg[i]].kind.Sensor? && !g[seg[s]].kind.Branch? && SetBetween(g, sw, seg, s, i)
    requires forall k | s < k < i :: !g[seg[k]].kind.Sensor?
    ensures Next(g, sw, seg[s]) == Some(Hit(seg[i], Odometer(g, seg, i) - Odometer(g, seg, s)))
  {
    forall k | s <= k < i
      ensures s < k ==> Passable(g, seg[k])
      ensures !g[seg[k]].kind.Branch? ==> Leads(g, seg[k], DIR_AHEAD, seg[k + 1])
    {
      assert HasEdge(g, seg[k], seg[k + 1]) && ArcsOk(g, seg[k]);
      if s < k {
        assert HasEdge(g, seg[k - 1], seg[k - 1 + 1]) && MirrorOk(g, seg[k - 1]) && MirrorOk(g, seg[k]);
        assert ArcsOk(g, g[seg[k]].reverse);
      }
    }
    assert forall k | s < k < i :: GuidedAt(g, sw, seg, k);
    LedNext(g, sw, seg, s, i);
  }

  /** The part of the segment walk before the path runs out: `s` is the last path node
      taken, and every sensor before it was still too near. */
  ghost predicate TookPath(g: Track, seg: seq<nat>, j: nat, s: nat, remain: int)
    requires Shaped(g) && IsWalk(g, seg)
  {
    && j <= s < |seg|
    && (s > j ==> g[seg[s]].kind.Sensor?)
    && (forall k | j < k < s && g[seg[k]].kind.Sensor? :: Odometer(g, seg, k) - Odometer(g, seg, j) < remain)
  }

  ghost predicate PathRanOut(g: Track, seg: seq<nat>, j: nat, s: nat, remain: int)
    requires Shaped(g) && IsWalk(g, seg) && j <= s < |seg|
  {
    || (s > j && Odometer(g, seg, s) - Odometer(g, seg, j) >= remain)
    || (forall k | s < k < |seg| :: !g[seg[k]].kind.Sensor?)
  }

  lemma {:induction false} OdometerStep(g: Track, seg: seq<nat>, j: nat)
    requires WellFormed(g) && IsWalk(g, seg) && 0 < j < |seg|
    ensures HasEdge(g, seg[j - 1], seg[j])
    ensures g[seg[j - 1]].kind.Branch? || g[seg[j - 1]].edge[DIR_AHEAD].Edge?
    ensures Odometer(g, seg, j) == Odometer(g, seg, j - 1) + StepLen(g, seg[j - 1], seg[j])
  {
    assert HasEdge(g, seg[j - 1], seg[j - 1 + 1]) && ArcsOk(g, seg[j - 1]);
  }

  /** Before `j`, the last sensor of the path was `seg[s]`, and it was too near. */
  ghost predicate PathSoFar(g: Track, seg: seq<nat>, start: nat, s: nat, j: nat, goal: int)
    requires Shaped(g) && IsWalk(g, seg)
  {
    && TookPath(g, seg, start, s, goal) && s < j <= |seg|
    && (forall k | s < k < j :: !g[seg[k]].kind.Sensor?)
    && (s > start ==> Odometer(g, seg, s) - Odometer(g, seg, start) < goal)
  }

  /** The free walk goes through the same sensor as the path. */
  lemma {:induction false} PathStep(g: Track, sw: Switches, seg: seq<nat>, j: nat, s: nat, i: nat, goal: int,
                                    walked: seq<nat>, remain: int)
    requires WellFormed(g) && Known(g, sw) && IsWalk(g, seg) && SetForPath(g, sw, seg, j)
    requires PathSoFar(g, seg, j, s, i, goal) && i < |seg| && g[seg[i]].kind.Sensor? && !g[seg[j]].kind.Branch?
    requires goal > 0 && remain == goal - (Odometer(g, seg, s) - Odometer(g, seg, j))
    ensures walked + Onward(g, sw, seg[s], remain)
            == walked + [seg[i]] + Onward(g, sw, seg[i], remain - (Odometer(g, seg, i) - Odometer(g, seg, s)))
  {
    PathLeads(g, sw, seg, s, i);
    OnwardStep(g, sw, walked, seg[s], remain, Hit(seg[i], Odometer(g, seg, i) - Odometer(g, seg, s)));
  }

  lemma {:induction false} PathSoFarStep(g: Track, seg: seq<nat>, start: nat, s: nat, j: nat, goal: int)
    requires Shaped(g) && IsWalk(g, seg) && PathSoFar(g, seg, start, s, j, goal)
    ensures j == |seg| ==> TookPath(g, seg, start, s, goal) && PathRanOut(g, seg, start, s, goal)
    ensures j < |seg| && !g[seg[j]].kind.Sensor? ==> PathSoFar(g, seg, start, s, j + 1, goal)
    ensures j < |seg| && g[seg[j]].kind.Sensor? ==>
      if Odometer(g, seg, j) - Odometer(g, seg, start) < goal then PathSoFar(g, seg, start, j, j + 1, goal)
      else TookPath(g, seg, start, j, goal) && PathRanOut(g, seg, start, j, goal)
  {
  }

  lemma {:induction false} SensorsSnoc(g: Track, seg: seq<nat>, a: nat, b: nat, j: nat)
    requires InTrack(g, seg) && a <= b <= j < |seg| && g[seg[j]].kind.Sensor?
    requires forall k | b <= k < j :: !g[seg[k]].kind.Sensor?
    ensures SensorsIn(g, seg, a, j + 1) == SensorsIn(g, seg, a, b) + [seg[j]]
  {
    NoSensors(g, seg, a, b, j);
  }

  lemma {:induction false} NoSensors(g: Track, seg: seq<nat>, a: nat, b: nat, j: nat)
    requires InTrack(g, seg) && a <= b <= j <= |seg|
    requires forall k | b <= k < j :: !g[seg[k]].kind.Sensor?
    ensures SensorsIn(g, seg, a, j) == SensorsIn(g, seg, a, b)
    decreases j - b
  {
    if b == j {
    } else {
      NoSensors(g, seg, a, b, j - 1);
    }
  }

  /** The sensors walked are those of the path up to `seg[s]`, and, if the switches are set
      for it, those of the free walk. */
  ghost predicate Walked(g: Track, sw: Switches, seg: seq<nat>, start: nat, goal: int,
                         s: nat, result: seq<nat>, sensorRemain: int)
    requires WellFormed(g) && Known(g, sw) && IsWalk(g, seg)
  {
    && start <= s < |seg|
    && sensorRemain == goal - (Odometer(g, seg, s) - Odometer(g, seg, start))
    && result != [] && Last(result) == seg[s]
    && result == [seg[start]] + SensorsIn(g, seg, start + 1, s + 1)
    && (goal > 0 && !g[seg[start]].kind.Branch? && SetForPath(g, sw, seg, start) ==>
          FreeWalk(g, sw, seg[start], goal) == result + Onward(g, sw, seg[s], sensorRemain))
  }

  ghost predicate WalkedTo(g: Track, sw: Switches, seg: seq<nat>, start: nat, goal: int, j: nat, remain: int,
                           s: nat, result: seq<nat>, sensorRemain: int)
    requires WellFormed(g) && Known(g, sw) && IsWalk(g, seg)
  {
    && PathSoFar(g, seg, start, s, j, goal)
    && remain == goal - (Odometer(g, seg, j - 1) - Odometer(g, seg, start))
    && Walked(g, sw, seg, start, goal, s, result, sensorRemain)
  }

  lemma {:induction false} WalkedStarts(g: Track, sw: Switches, seg: seq<nat>, start: nat, goal: int)
    requires WellFormed(g) && Known(g, sw) && IsWalk(g, seg) && start < |seg|
    ensures WalkedTo(g, sw, seg, start, goal, start + 1, goal, start, [seg[start]], goal)
  {
  }

  lemma {:induction false} WalkedPast(g: Track, sw: Switches, seg: seq<nat>, start: nat, goal: int, j: nat, remain: int,
                                      s: nat, result: seq<nat>, sensorRemain: int)
    requires WellFormed(g) && Known(g, sw) && IsWalk(g, seg) && j < |seg| && !g[seg[j]].kind.Sensor?
    requires WalkedTo(g, sw, seg, start, goal, j, remain, s, result, sensorRemain)
    ensures WalkedTo(g, sw, seg, start, goal, j + 1, goal - (Odometer(g, seg, j) - Odometer(g, seg, start)), s,
      result, sensorRemain)
  {
  }

  lemma {:induction false} WalkedOntoFree(g: Track, sw: Switches, seg: seq<nat>, start: nat, goal: int, j: nat,
                                          remain: int,
                                          s: nat, result: seq<nat>, sensorRemain: int)
    requires WellFormed(g) && Known(g, sw) && IsWalk(g, seg) && j < |seg| && g[seg[j]].kind.Sensor?
    requires WalkedTo(g, sw, seg, start, goal, j, remain, s, result, sensorRemain)
    requires goal > 0 && !g[seg[start]].kind.Branch? && SetForPath(g, sw, seg, start)
    ensures FreeWalk(g, sw, seg[start], goal)
            == result + [seg[j]] + Onward(g, sw, seg[j], goal - (Odometer(g, seg, j) - Odometer(g, seg, start)))
  {
    hide WellFormed, Known, Next, Onward, FreeWalk, HasEdge, EdgeLen, Odometer, StepLen, SensorsIn, TookPath,
      SetForPath, PathSoFar;
    PathStep(g, sw, seg, start, s, j, goal, result, sensorRemain);
  }

  lemma {:induction false} WalkedSensors(g: Track, seg: seq<nat>, start: nat, s: nat, j: nat, goal: int,
                                         result: seq<nat>)
    requires Shaped(g) && IsWalk(g, seg) && PathSoFar(g, seg, start, s, j, goal) && j < |seg| && g[seg[j]].kind.Sensor?
    requires result == [seg[start]] + SensorsIn(g, seg, start + 1, s + 1)
    ensures start <= j && result + [seg[j]] == [seg[start]] + SensorsIn(g, seg, start + 1, j + 1)
  {
    hide Shaped, HasEdge, SensorsIn;
    SensorsSnoc(g, seg, start + 1, s + 1, j);
    assert result + [seg[j]] == [seg[start]] + (SensorsIn(g, seg, start + 1, s + 1) + [seg[j]]);
  }

  lemma {:induction false} WalkedOnto(g: Track, sw: Switches, seg: seq<nat>, start: nat, goal: int, j: nat, remain: int,
                                      s: nat, result: seq<nat>, sensorRemain: int)
    requires WellFormed(g) && Known(g, sw) && IsWalk(g, seg) && j < |seg| && g[seg[j]].kind.Sensor?
    requires WalkedTo(g, sw, seg, start, goal, j, remain, s, result, sensorRemain)
    ensures Walked(g, sw, seg, start, goal, j, result + [seg[j]],
      goal - (Odometer(g, seg, j) - Odometer(g, seg, start)))
  {
    assert Shaped(g) && InTrack(g, seg);
    hide WellFormed, Known, Next, Onward, FreeWalk, Shaped, IsWalk, Odometer, SensorsIn, SetForPath, PathSoFar;
    WalkedSensors(g, seg, start, s, j, goal, result);
    if goal > 0 && !g[seg[start]].kind.Branch? && SetForPath(g, sw, seg, start) {
      WalkedOntoFree(g, sw, seg, start, goal, j, remain, s, result, sensorRemain);
    }
  }

  lemma {:induction false} WalkedStep(g: Track, sw: Switches, seg: seq<nat>, start: nat, goal: int, j: nat, remain: int,
                                      s: nat, result: seq<nat>, sensorRemain: int)
    requires WellFormed(g) && Known(g, sw) && IsWalk(g, seg) && j < |seg|
    requires WalkedTo(g, sw, seg, start, goal, j, remain, s, result, sensorRemain)
    ensures 0 < j && HasEdge(g, seg[j - 1], seg[j])
      && (g[seg[j - 1]].kind.Branch? || g[seg[j - 1]].edge[DIR_AHEAD].Edge?)
    ensures var remain' := remain - StepLen(g, seg[j - 1], seg[j]);
      if !g[seg[j]].kind.Sensor? then WalkedTo(g, sw, seg, start, goal, j + 1, remain', s, result, sensorRemain)
      else
        && Walked(g, sw, seg, start, goal, j, result + [seg[j]], remain')
        && if remain' > 0 then WalkedTo(g, sw, seg, start, goal, j + 1, remain', j, result + [seg[j]], remain')
           else TookPath(g, seg, start, j, goal) && PathRanOut(g, seg, start, j, goal)
  {
    assert Shaped(g);
    hide WellFormed, Known, Next, Onward, HasEdge, EdgeLen, Odometer, StepLen, SensorsIn, TookPath, PathRanOut;
    hide Walked;
    OdometerStep(g, seg, j);
    PathSoFarStep(g, seg, start, s, j, goal);
    if g[seg[j]].kind.Sensor? {
      WalkedOnto(g, sw, seg, start, goal, j, remain, s, result, sensorRemain);
    } else {
      WalkedPast(g, sw, seg, start, goal, j, remain, s, result, sensorRemain);
    }
  }

  /** The loop over the path. */
  method WalkPath(g: Track, start: nat, goal: int, seg: seq<nat>, ghost switches: Switches)
    returns (result: seq<nat>, sensorRemain: int, ghost s: nat)
    requires WellFormed(g) && Known(g, switches) && IsWalk(g, seg) && start < |seg|
    ensures TookPath(g, seg, start, s, goal) && PathRanOut(g, seg, start, s, goal)
    ensures Walked(g, switches, seg, start, goal, s, result, sensorRemain)
  {
    assert Shaped(g) && InTrack(g, seg);
    hide WellFormed, Known, IsWalk, WalkedTo, Walked, HasEdge, StepLen, TookPath, PathRanOut;
    result := [seg[start]];
    var remain := goal;
    sensorRemain := remain;
    var j := start + 1;
    s := start;
    WalkedStarts(g, switches, seg, start, goal);
    while j < |seg|
      invariant WalkedTo(g, switches, seg, start, goal, j, remain, s, result, sensorRemain)
    {
      WalkedStep(g, switches, seg, start, goal, j, remain, s, result, sensorRemain);
      remain := remain - StepLen(g, seg[j - 1], seg[j]);
      if g[seg[j]].kind.Sensor? {
        s := j;
        result := result + [seg[j]];
        sensorRemain := remain;
        if remain <= 0 {
          return;
        }
      }
      j := j + 1;
    }
    WalkedEnds(g, switches, seg, start, goal, j, remain, s, result, sensorRemain);
  }

  lemma {:induction false} WalkedEnds(g: Track, sw: Switches, seg: seq<nat>, start: nat, goal: int, j: nat, remain: int,
                                      s: nat, result: seq<nat>, sensorRemain: int)
    requires WellFormed(g) && Known(g, sw) && IsWalk(g, seg) && j >= |seg|
    requires WalkedTo(g, sw, seg, start, goal, j, remain, s, result, sensorRemain)
    ensures TookPath(g, seg, start, s, goal) && PathRanOut(g, seg, start, s, goal)
    ensures Walked(g, sw, seg, start, goal, s, result, sensorRemain)
  {
  }

  /** `walk_sensor` along a path segment, from its `start`-th node: first the sensors of the
      path, then, if they do not cover the distance, wherever the switches lead. When the
      path's branches are set already, that is where the switches lead all along. */
  method WalkSensorOnPath(g: Track, start: nat, offset: int, dist: int, seg: seq<nat>, switches: Switches)
    returns (result: seq<nat>, ghost s: nat)
    requires WellFormed(g) && Known(g, switches) && IsWalk(g, seg) && start < |seg|
    ensures TookPath(g, seg, start, s, dist + offset) && PathRanOut(g, seg, start, s, dist + offset)
    ensures var left := dist + offset - (Odometer(g, seg, s) - Odometer(g, seg, start));
      result == [seg[start]] + SensorsIn(g, seg, start + 1, s + 1) + Onward(g, switches, seg[s], left)
    ensures dist + offset > 0 && !g[seg[start]].kind.Branch? && SetForPath(g, switches, seg, start) ==>
      result == FreeWalk(g, switches, seg[start], dist + offset)
  {
    var walked, sensorRemain;
    walked, sensorRemain, s := WalkPath(g, start, dist + offset, seg, switches);
    hide WellFormed, Known, Next, SetForPath, Odometer, TookPath, PathRanOut, SensorsIn, Onward;
    result := WalkOn(g, walked, sensorRemain, switches);
  }
}
