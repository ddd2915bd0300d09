/** Turning round between two sensors: the way back is the way there. */
module Reversal {
  import opened TrackGraph
  import opened Wrappers
  import opened Walks

  /** The walk of a train that turned round at the end of `p` and goes back over it. */
  ghost function Back(g: Track, p: seq<nat>): (q: seq<nat>)
    requires Shaped(g) && InTrack(g, p)
    ensures |q| == |p| && InTrack(g, q)
    ensures forall i | 0 <= i < |p| :: q[i] == g[p[|p| - 1 - i]].reverse
  {
    seq(|p|, i requires 0 <= i < |p| => g[p[|p| - 1 - i]].reverse)
  }

  /** If `p[i]` is a merge, its paired switch is set towards where the train came from. */
  ghost predicate SetBackAt(g: Track, sw: Switches, p: seq<nat>, i: nat)
    requires WellFormed(g) && Known(g, sw) && InTrack(g, p) && 0 < i < |p|
  {
    g[p[i]].kind.Merge? ==>
      var branch := g[p[i]].reverse;
      branch < |g| && Leads(g, branch, WayOut(g, sw, branch), g[p[i - 1]].reverse)
  }

  ghost predicate MergesSetBack(g: Track, sw: Switches, p: seq<nat>)
    requires WellFormed(g) && Known(g, sw) && InTrack(g, p)
  {
    forall i | 0 < i < |p| - 1 :: SetBackAt(g, sw, p, i)
  }

  lemma {:induction false} BackEdge(g: Track, a: nat, b: nat)
    requires WellFormed(g) && a < |g| && b < |g| && HasEdge(g, a, b)
    ensures HasEdge(g, g[b].reverse, g[a].reverse)
    ensures EdgeLen(g, g[b].reverse, g[a].reverse) == EdgeLen(g, a, b)
    ensures !g[g[b].reverse].kind.Branch? ==> Leads(g, g[b].reverse, DIR_AHEAD, g[a].reverse)
  {
    assert MirrorOk(g, a) && MirrorOk(g, b) && ArcsOk(g, g[b].reverse);
  }

  lemma {:induction false} BackIsWalk(g: Track, p: seq<nat>)
    requires WellFormed(g) && IsWalk(g, p)
    ensures IsWalk(g, Back(g, p))
  {
    var q := Back(g, p);
    forall i | 0 <= i < |q| - 1
      ensures HasEdge(g, q[i], q[i + 1])
    {
      var k := |p| - 2 - i;
      assert HasEdge(g, p[k], p[k + 1]);
      BackEdge(g, p[k], p[k + 1]);
    }
  }

  lemma {:induction false} BackStep(g: Track, p: seq<nat>, q: seq<nat>, i: nat)
    requires WellFormed(g) && IsWalk(g, p) && IsWalk(g, q) && q == Back(g, p) && 0 < i < |p|
    ensures var k := |p| - 1 - i;
      Odometer(g, q, i) - Odometer(g, q, i - 1) == Odometer(g, p, k + 1) - Odometer(g, p, k)
  {
    var k := |p| - 1 - i;
    assert HasEdge(g, p[k], p[k + 1]);
    BackEdge(g, p[k], p[k + 1]);
  }

  lemma {:induction false} BackOdometer(g: Track, p: seq<nat>, q: seq<nat>, i: nat)
    requires Shaped(g) && IsWalk(g, p) && IsWalk(g, q) && |q| == |p| && i < |p|
    requires forall k | 0 < k < |p| ::
      Odometer(g, q, k) - Odometer(g, q, k - 1) == Odometer(g, p, |p| - k) - Odometer(g, p, |p| - 1 - k)
    ensures Odometer(g, q, i) == Odometer(g, p, |p| - 1) - Odometer(g, p, |p| - 1 - i)
    decreases i
  {
    if i == 0 {
    } else {
      BackOdometer(g, p, q, i - 1);
    }
  }

  lemma {:induction false} BackEnds(g: Track, p: seq<nat>, q: seq<nat>)
    requires WellFormed(g) && IsWalk(g, p) && |p| > 1 && q == Back(g, p)
    requires g[p[0]].kind.Sensor? && g[Last(p)].kind.Sensor?
    ensures IsWalk(g, q) && Leads(g, q[0], DIR_AHEAD, q[1]) && g[Last(q)].kind.Sensor?
  {
    var n := |p| - 1;
    BackIsWalk(g, p);
    assert MirrorOk(g, p[0]) && MirrorOk(g, p[n]);
    assert HasEdge(g, p[n - 1], p[n - 1 + 1]);
    BackEdge(g, p[n - 1], p[n]);
  }

  /** A train going back leaves a merge the only way there is, and a branch as it is set. */
  lemma {:induction false} WayBack(g: Track, sw: Switches, p: seq<nat>, q: seq<nat>, k: nat)
    requires WellFormed(g) && Known(g, sw) && IsWalk(g, p) && q == Back(g, p) && 0 < k < |p| - 1
    requires Passable(g, p[|p| - 1 - k])
    ensures GuidedAt(g, sw, q, k) <==> SetBackAt(g, sw, p, |p| - 1 - k)
  {
    var i := |p| - 1 - k;
    assert MirrorOk(g, p[i]);
    assert HasEdge(g, p[i - 1], p[i - 1 + 1]);
    BackEdge(g, p[i - 1], p[i]);
  }

  /** The switches `back` lead a train that went over `p` and turned round at its end back
      over the same nodes exactly when every merge it passed is set back. How the switches
      were on the way there does not matter. */
  lemma {:induction false} LedBack(g: Track, sw: Switches, back: Switches, p: seq<nat>)
    requires WellFormed(g) && Known(g, sw) && Known(g, back)
    requires |p| > 1 && Led(g, sw, p, 0, |p| - 1) && g[p[0]].kind.Sensor?
    ensures Led(g, back, Back(g, p), 0, |p| - 1) <==> MergesSetBack(g, back, p)
  {
    var q, n := Back(g, p), |p| - 1;
    BackEnds(g, p, q);
    forall k | 0 < k < n
      ensures GuidedAt(g, back, q, k) <==> SetBackAt(g, back, p, n - k)
    {
      assert GuidedAt(g, sw, p, n - k);
      WayBack(g, back, p, q, k);
    }
    hide WellFormed, Known, IsWalk, GuidedAt, SetBackAt, Leads, Back;
    if Led(g, back, q, 0, n) {
      forall i | 0 < i < n
        ensures SetBackAt(g, back, p, i)
      {
        assert GuidedAt(g, back, q, n - i);
      }
    }
  }

  /** If the next sensor after `a` is `b`, `d` ahead, then, once the merges are set back, the
      next after `b.reverse` is `a.reverse`, just as far. */
  lemma {:induction false} NextBack(g: Track, sw: Switches, back: Switches, p: seq<nat>, a: nat, hit: Hit)
    requires WellFormed(g) && Known(g, sw) && Known(g, back)
    requires SensorWalk(g, sw, p, a, hit) && g[a].kind.Sensor? && MergesSetBack(g, back, p)
    ensures Next(g, sw, a) == Some(hit)
    ensures Next(g, back, g[hit.sensor].reverse) == Some(Hit(g[a].reverse, hit.dist))
  {
    LedNext(g, sw, p, 0, |p| - 1);
    LedBack(g, sw, back, p);
    var q := Back(g, p);
    forall k | 0 < k < |p|
      ensures Odometer(g, q, k) - Odometer(g, q, k - 1) == Odometer(g, p, |p| - k) - Odometer(g, p, |p| - 1 - k)
    {
      BackStep(g, p, q, k);
    }
    BackOdometer(g, p, q, |p| - 1);
    LedNext(g, back, Back(g, p), 0, |p| - 1);
  }
}
