/** What a driver does, as one sees it from outside: which switches it locks and sets, when it
    brakes, waits and goes on; said of its steps, and of whole runs of all drivers. */
module DriverBehaviour {
  import opened TrackGraph
  import opened Wrappers
  import opened FindPath
  import opened DriverSteps
  import opened DriverSafety

  // ----- Free switches that are demanded are taken -----

  predicate Unmet(demands: seq<Demand>, k: nat) {
    k < |demands| && demands[k].dir != NONE
  }

  /** The lock that the `k`-th demand asks for is free, and no demand from the `lo`-th on is
      ahead of it for the same switch. */
  ghost predicate CanBeMet(w: World, lo: nat, k: nat)
    requires Lockable(w.driver.demands, w.locks.owner)
  {
    var demands := w.driver.demands;
    && lo <= k && Unmet(demands, k) && w.locks.owner[demands[k].num] == 0
    && forall m: nat | lo <= m < k && Unmet(demands, m) :: demands[m].num != demands[k].num
  }

  /** The switch was locked and sent the one command demanded, and the demand remembers it. */
  ghost predicate Met(w: World, w': World, k: nat)
    requires k < |w.driver.demands|
  {
    var Demand(num, dir) := w.driver.demands[k];
    && k < |w'.driver.demands| && w'.driver.demands[k] == Demand(num, NONE)
    && num in w'.locks.owner && w'.locks.owner[num] == w.driver.train
    && exists m: nat :: |w.locks.log| <= m && OrderedAt(w'.locks.log, m, num, w.driver.train, dir)
  }

  ghost predicate OrderedAt(log: seq<Event>, m: nat, num: int, train: int, dir: SwitchDir) {
    m + 1 < |log| && log[m] == Acquire(num, train) && log[m + 1] == Command(num, train, dir)
  }

  /** Each demand whose lock is free, the first for its switch, is met; the others stay. */
  lemma {:induction false} SwitchMeets(w: World, lo: nat, k: nat)
    requires Lockable(w.driver.demands, w.locks.owner) && w.driver.train != 0 && lo <= k < |w.driver.demands|
    ensures if CanBeMet(w, lo, k) then Met(w, SwitchFrom(w, lo), k)
            else k < |SwitchFrom(w, lo).driver.demands| && SwitchFrom(w, lo).driver.demands[k] == w.driver.demands[k]
    decreases |w.driver.demands| - lo
  {
    var Demand(num, dir) := w.driver.demands[lo];
    if dir == NONE || w.locks.owner[num] != 0 {
      if k == lo {
        SwitchLeaves(w, lo + 1, lo);
      } else {
        SwitchMeets(w, lo + 1, k);
        assert CanBeMet(w, lo, k) <==> CanBeMet(w, lo + 1, k);
      }
    } else {
      var w1 := Taken(w, lo);
      TakenIsMet(w, lo);
      SwitchGrows(w1, lo + 1);
      if k == lo {
        SwitchLeaves(w1, lo + 1, lo);
        SwitchHolds(w1, lo + 1, num);
        assert OrderedAt(SwitchFrom(w, lo).locks.log, |w.locks.log|, num, w.driver.train, dir);
      } else {
        SwitchMeets(w1, lo + 1, k);
        assert Unmet(w.driver.demands, lo);
        assert CanBeMet(w, lo, k) <==> CanBeMet(w1, lo + 1, k);
      }
    }
  }

  lemma {:induction false} TakenIsMet(w: World, k: nat)
    requires k < |w.driver.demands|
    ensures forall m: nat :: Unmet(Taken(w, k).driver.demands, m) <==> m != k && Unmet(w.driver.demands, m)
  {
  }

  /** Demands before the `lo`-th are not looked at again. */
  lemma {:induction false} SwitchLeaves(w: World, lo: nat, k: nat)
    requires Lockable(w.driver.demands, w.locks.owner) && k < lo && k < |w.driver.demands|
    ensures k < |SwitchFrom(w, lo).driver.demands| && SwitchFrom(w, lo).driver.demands[k] == w.driver.demands[k]
    decreases |w.driver.demands| - lo
  {
    if lo >= |w.driver.demands| {
    } else {
      var Demand(num, dir) := w.driver.demands[lo];
      SwitchLeaves(if dir == NONE || w.locks.owner[num] != 0 then w else Taken(w, lo), lo + 1, k);
    }
  }

  lemma {:induction false} SwitchGrows(w: World, lo: nat)
    requires Lockable(w.driver.demands, w.locks.owner)
    ensures w.locks.log <= SwitchFrom(w, lo).locks.log
    decreases |w.driver.demands| - lo
  {
    if lo >= |w.driver.demands| {
    } else {
      var Demand(num, dir) := w.driver.demands[lo];
      SwitchGrows(if dir == NONE || w.locks.owner[num] != 0 then w else Taken(w, lo), lo + 1);
    }
  }

  /** A lock that is held stays as it is; one that is free and demanded does not stay free. */
  lemma {:induction false} SwitchHolds(w: World, lo: nat, num: int)
    requires Lockable(w.driver.demands, w.locks.owner) && w.driver.train != 0 && num in w.locks.owner
    ensures var w' := SwitchFrom(w, lo);
      && num in w'.locks.owner
      && (w.locks.owner[num] != 0 ==> w'.locks.owner[num] == w.locks.owner[num])
      && (forall k: nat | lo <= k && Unmet(w.driver.demands, k) && w.driver.demands[k].num == num ::
            w'.locks.owner[num] != 0)
    decreases |w.driver.demands| - lo
  {
    if lo >= |w.driver.demands| {
    } else {
      var Demand(n, dir) := w.driver.demands[lo];
      TakenIsMet(w, lo);
      SwitchHolds(if dir == NONE || w.locks.owner[n] != 0 then w else Taken(w, lo), lo + 1, num);
    }
  }

  /** Whatever is still demanded is held by somebody. */
  ghost predicate NoneFree(w: World)
    requires Lockable(w.driver.demands, w.locks.owner)
  {
    forall k: nat | Unmet(w.driver.demands, k) :: w.locks.owner[w.driver.demands[k].num] != 0
  }

  lemma {:induction false} SwitchLeavesNoneFree(w: World)
    requires Lockable(w.driver.demands, w.locks.owner) && w.driver.train != 0
    ensures var w' := SwitchFrom(w, 0); Lockable(w'.driver.demands, w'.locks.owner) && NoneFree(w')
  {
    var w' := SwitchFrom(w, 0);
    SwitchFromKeeps(w, 0);
    forall k: nat | Unmet(w'.driver.demands, k)
      ensures w'.locks.owner[w'.driver.demands[k].num] != 0
    {
      SwitchMeets(w, 0, k);
      SwitchHolds(w, 0, w.driver.demands[k].num);
    }
  }

  // ----- Branches ahead are minded -----

  /** The branch is demanded still, or the driver holds it, set as demanded. */
  predicate Minded(d: Driver, e: Demand) {
    e in d.demands || Demand(e.num, NONE) in d.demands
  }

  /** A branch ahead of the driver's index is set against its path, with at most one sensor
      before it, or none if the train is fast. */
  ghost predicate Against(g: Track, d: Driver, o: Observation, k: nat, e: Demand)
    requires Shaped(g) && IndexOk(g, d) && d.path.Some? && Equipped(g, o.status.Keys)
  {
    MisSetAt(g, CurrentNodes(d), d.j + 1, o.status, o.fast, k, e)
  }

  /** Every such branch is minded, and nothing else is. */
  ghost predicate LooksAhead(g: Track, d: Driver, o: Observation)
    requires Shaped(g) && IndexOk(g, d) && d.path.Some? && Equipped(g, o.status.Keys)
  {
    && (forall k, e | Against(g, d, o, k, e) :: Minded(d, e))
    && (forall x | x in d.demands :: ForBranchAhead(g, d, o, x))
  }

  /** The demand, met or not, is for such a branch. */
  ghost predicate ForBranchAhead(g: Track, d: Driver, o: Observation, x: Demand)
    requires Shaped(g) && IndexOk(g, d) && d.path.Some? && Equipped(g, o.status.Keys)
  {
    exists k, e :: Against(g, d, o, k, e) && e.num == x.num && (x.dir == NONE || x == e)
  }

  lemma {:induction false} SwitchMinds(w: World, e: Demand)
    requires Lockable(w.driver.demands, w.locks.owner) && w.driver.train != 0 && e in w.driver.demands
    ensures Minded(SwitchFrom(w, 0).driver, e)
  {
    var x :| 0 <= x < |w.driver.demands| && w.driver.demands[x] == e;
    SwitchMeets(w, 0, x);
    hide SwitchFrom;
    assert SwitchFrom(w, 0).driver.demands[x] in SwitchFrom(w, 0).driver.demands;
  }

  /** What is demanded now was demanded, and has perhaps been met. */
  lemma {:induction false} SwitchAsked(w: World, x: Demand) returns (e: Demand)
    requires Lockable(w.driver.demands, w.locks.owner) && w.driver.train != 0
    requires x in SwitchFrom(w, 0).driver.demands
    ensures e in w.driver.demands && e.num == x.num && (x.dir == NONE || x == e)
  {
    SwitchFromKeeps(w, 0);
    var m :| 0 <= m < |w.driver.demands| && SwitchFrom(w, 0).driver.demands[m] == x;
    SwitchMeets(w, 0, m);
    hide SwitchFrom;
    e := w.driver.demands[m];
  }

  /** The driver demands what it should, and nothing of it is met yet. */
  ghost predicate Demands(g: Track, w: World, o: Observation) {
    && CanStep(g, w, o) && w.driver.path.Some? && w.driver.train != 0
    && w.driver.demands == DemandsFrom(g, CurrentNodes(w.driver), w.driver.j + 1, o.status, o.fast)
  }

  lemma {:induction false} AgainstIsDemanded(g: Track, w: World, o: Observation, e: Demand)
    requires Demands(g, w, o)
    ensures e in w.driver.demands <==> exists k: nat :: Against(g, w.driver, o, k, e)
  {
    var seg, ahead := CurrentNodes(w.driver), w.driver.j + 1;
    DemandsExactly(g, seg, ahead, o.status, o.fast, e);
    hide MisSetAt, DemandsFrom;
    if k: nat :| MisSetAt(g, seg, ahead, o.status, o.fast, k, e) {
      assert Against(g, w.driver, o, k, e);
    }
  }

  lemma {:induction false} SameLegSameBranches(g: Track, d: Driver, d': Driver, o: Observation, k: nat, e: Demand)
    requires Shaped(g) && IndexOk(g, d) && d.path.Some? && Equipped(g, o.status.Keys)
    requires IndexOk(g, d') && d'.path == d.path && d'.i == d.i && d'.j == d.j
    ensures Against(g, d', o, k, e) <==> Against(g, d, o, k, e)
  {
    hide MisSetAt;
  }

  lemma {:induction false} DemandingLooks(g: Track, w: World, o: Observation)
    requires Demands(g, w, o)
    ensures var d := SwitchFrom(w, 0).driver; d.path.Some? && IndexOk(g, d) && LooksAhead(g, d, o)
  {
    var w' := SwitchFrom(w, 0);
    SwitchFromKeeps(w, 0);
    assert IndexOk(g, w'.driver);
    hide SwitchFrom, Against, Minded, DemandsFrom, IndexOk, ObservationOk;
    forall k, e | Against(g, w'.driver, o, k, e)
      ensures Minded(w'.driver, e)
    {
      SameLegSameBranches(g, w.driver, w'.driver, o, k, e);
      AgainstIsDemanded(g, w, o, e);
      SwitchMinds(w, e);
    }
    forall x | x in w'.driver.demands
      ensures ForBranchAhead(g, w'.driver, o, x)
    {
      var e := SwitchAsked(w, x);
      AgainstIsDemanded(g, w, o, e);
      var k: nat :| Against(g, w.driver, o, k, e);
      SameLegSameBranches(g, w.driver, w'.driver, o, k, e);
    }
  }

  /** What a driver that has no demands does when it looks ahead. */
  lemma {:induction false} LooksAndLocks(g: Track, w: World, o: Observation)
    requires CanStep(g, w, o) && w.driver.path.Some? && LockOk(w) && w.driver.demands == []
    ensures LockOk(WithDriver(w, Demanding(g, w.driver, o)))
    ensures var w' := SwitchFrom(WithDriver(w, Demanding(g, w.driver, o)), 0);
      && w'.driver == w.driver.(demands := w'.driver.demands) && IndexOk(g, w'.driver)
      && Lockable(w'.driver.demands, w'.locks.owner) && NoneFree(w') && LooksAhead(g, w'.driver, o)
  {
    hide SwitchFrom, DemandsFrom, LooksAhead, NoneFree, HoldsOk, Wanted;
    DemandingKeeps(g, w, o);
    var asking := WithDriver(w, Demanding(g, w.driver, o));
    SwitchFromKeeps(asking, 0);
    SwitchLeavesNoneFree(asking);
    DemandingLooks(g, asking, o);
  }

  /** The driver has no lock, no demand and no path. */
  ghost predicate GaveUp(w: World) {
    && w.driver.path.None? && w.driver.mode.Thinking? && w.driver.dest.None?
    && w.driver.demands == [] && HoldsNothing(w)
  }

  ghost predicate HoldsNothing(w: World) {
    forall num | num in w.locks.owner :: w.locks.owner[num] != w.driver.train
  }

  lemma {:induction false} ResetGivesUp(w: World)
    requires LockOk(w)
    ensures GaveUp(Reset(w)) && Reset(w).locks.owner.Keys == w.locks.owner.Keys
  {
    var d := w.driver.(path := None, i := 0, j := 0, dest := None, brakingDist := 0, mode := Thinking);
    UnlockedKeeps(World(d, w.locks));
    hide TenuresOk;
  }

  /** The next sensor of the segment after the driver's index. */
  ghost predicate IsNextSensor(g: Track, d: Driver, j: nat)
    requires Shaped(g) && IndexOk(g, d) && d.path.Some?
  {
    var seg := CurrentNodes(d);
    && d.j < j < |seg| && g[seg[j]].kind.Sensor?
    && forall m | d.j < m < j :: !g[seg[m]].kind.Sensor?
  }

  /** The driver goes on to its `j`-th node, and minds the branches ahead of it. */
  ghost predicate MovedTo(g: Track, w: World, w': World, o: Observation, j: nat)
    requires CanStep(g, w, o)
  {
    && w'.driver == w.driver.(j := j, demands := w'.driver.demands)
    && w'.driver.path.Some? && IndexOk(g, w'.driver) && LooksAhead(g, w'.driver, o)
    && Lockable(w'.driver.demands, w'.locks.owner) && NoneFree(w')
  }

  lemma {:induction false} PassesTo(g: Track, w: World, o: Observation, j: nat)
    requires CanStep(g, w, o) && DriverOk(g, w) && w.driver.path.Some? && IsNextSensor(g, w.driver, j)
    requires CurrentNodes(w.driver)[w.driver.j] != o.pos && o.pos in CurrentNodes(w.driver)
    ensures MovedTo(g, w, Advance(g, w, o), o, j)
  {
    hide TenuresOk, SwitchFrom, Demanding, DemandsFrom, UnlockFrom, LooksAhead, NoneFree, Reset, ObservationOk;
    LocksOfDriver(g, w);
    assert j == NextSensorIndex(g, CurrentNodes(w.driver), w.driver.j + 1);
    var moved := World(w.driver.(j := j), w.locks);
    UnlockedKeeps(moved);
    LooksAndLocks(g, Unlocked(moved), o);
  }

  /** A train that left its path is given up. At another sensor of the path the driver goes
      on to the next one, lets go of its switches and minds those ahead. */
  lemma {:induction false} AdvanceDoes(g: Track, w: World, o: Observation)
    requires CanStep(g, w, o) && DriverOk(g, w) && w.driver.path.Some?
    ensures var d, w', seg := w.driver, Advance(g, w, o), CurrentNodes(w.driver);
      && (o.pos !in seg ==> GaveUp(w'))
      && (o.pos == seg[d.j] ==> w' == w)
      && (o.pos in seg && o.pos != seg[d.j] ==>
            && (forall j: nat | IsNextSensor(g, d, j) :: MovedTo(g, w, w', o, j))
            && ((forall j: nat :: !IsNextSensor(g, d, j)) ==> w' == w))
  {
    var d, seg := w.driver, CurrentNodes(w.driver);
    var next := NextSensorIndex(g, seg, d.j + 1);
    hide TenuresOk, SwitchFrom, Demanding, DemandsFrom, UnlockFrom, MovedTo, GaveUp, Reset, ObservationOk, DriverOk;
    if o.pos !in seg {
      LocksOfDriver(g, w);
      ResetGivesUp(w);
    } else if o.pos != seg[d.j] {
      assert next < |seg| ==> IsNextSensor(g, d, next);
      forall j: nat | IsNextSensor(g, d, j)
        ensures MovedTo(g, w, Advance(g, w, o), o, j)
      {
        PassesTo(g, w, o, j);
      }
    }
  }

  lemma {:induction false} LocksOfDriver(g: Track, w: World)
    requires Shaped(g) && DriverOk(g, w)
    ensures LockOk(w)
  {
  }

  // ----- What each mode does -----

  /** With the braking distance of its new speed, the train runs, its branches minded. */
  lemma {:induction false} StartsSegment(g: Track, w: World, o: Observation)
    requires CanStep(g, w, o) && DriverOk(g, w) && w.driver.mode.AccelToStartSegment?
    ensures var d, w' := w.driver, Perform(g, w, o);
      && w'.driver == d.(mode := RunningSegment, brakingDist := o.brakingFor, demands := w'.driver.demands)
      && w'.driver.path.Some? && IndexOk(g, w'.driver) && LooksAhead(g, w'.driver, o)
      && Lockable(w'.driver.demands, w'.locks.owner) && NoneFree(w')
  {
    hide TenuresOk, SwitchFrom, DemandsFrom, LooksAhead, NoneFree;
    var start := WithDriver(w, w.driver.(brakingDist := o.brakingFor));
    LooksAndLocks(g, start, o);
    var looked := SwitchFrom(WithDriver(start, Demanding(g, start.driver, o)), 0);
    assert Perform(g, w, o) == WithDriver(looked, looked.driver.(mode := RunningSegment));
    LooksAnyMode(g, looked.driver, o, RunningSegment);
    NoneFreeAnyMode(looked, RunningSegment);
  }

  lemma {:induction false} LooksAnyMode(g: Track, d: Driver, o: Observation, mode: Mode)
    requires Shaped(g) && IndexOk(g, d) && d.path.Some? && Equipped(g, o.status.Keys) && !mode.Thinking?
    ensures LooksAhead(g, d.(mode := mode), o) <==> LooksAhead(g, d, o)
  {
    hide MisSetAt;
    forall k, e
      ensures Against(g, d.(mode := mode), o, k, e) <==> Against(g, d, o, k, e)
    {
    }
    forall x
      ensures ForBranchAhead(g, d.(mode := mode), o, x) <==> ForBranchAhead(g, d, o, x)
    {
    }
  }

  lemma {:induction false} NoneFreeAnyMode(w: World, mode: Mode)
    requires Lockable(w.driver.demands, w.locks.owner)
    ensures NoneFree(WithDriver(w, w.driver.(mode := mode))) <==> NoneFree(w)
  {
  }

  /** While its train moves along the segment, a driver only moves its index: at another node
      of the path, to the next sensor if there is one, minding the branches ahead of it. */
  ghost predicate GoesAlong(g: Track, d: Driver, d': Driver, o: Observation, mode: Mode)
    requires Shaped(g) && IndexOk(g, d) && d.path.Some? && Equipped(g, o.status.Keys)
  {
    && d' == d.(mode := mode, j := d'.j, demands := d'.demands) && IndexOk(g, d')
    && (if d'.j == d.j then o.pos == CurrentNodes(d)[d.j] || forall j: nat :: !IsNextSensor(g, d, j)
        else o.pos != CurrentNodes(d)[d.j] && IsNextSensor(g, d, d'.j) && LooksAhead(g, d', o))
  }

  lemma {:induction false} AdvanceGoesAlong(g: Track, w: World, o: Observation)
    requires CanStep(g, w, o) && DriverOk(g, w) && w.driver.path.Some? && o.pos in CurrentNodes(w.driver)
    ensures GoesAlong(g, w.driver, Advance(g, w, o).driver, o, w.driver.mode)
    ensures NoneFree(w) ==>
      var w' := Advance(g, w, o); Lockable(w'.driver.demands, w'.locks.owner) && NoneFree(w')
  {
    AdvanceDoes(g, w, o);
    hide TenuresOk, DriverOk, Advance, LooksAhead, NoneFree, ObservationOk;
    if j: nat :| IsNextSensor(g, w.driver, j) {
    }
  }

  /** A running train first takes what it can, and brakes if it must. */
  lemma {:induction false} RanThenAdvances(g: Track, w: World, o: Observation) returns (b: World)
    requires CanStep(g, w, o) && DriverOk(g, w) && w.driver.mode.RunningSegment?
    ensures CanStep(g, b, o) && DriverOk(g, b) && b.driver.path.Some? && Ran(g, w, o) == Advance(g, b, o)
    ensures var d := w.driver;
      b.driver == d.(mode := if DistLeft(d) <= d.brakingDist then Breaking else RunningSegment,
                     demands := b.driver.demands)
    ensures NoneFree(b) && KeepsDemands(w.driver, b.driver)
  {
    LocksOfDriver(g, w);
    hide TenuresOk, DriverOk, SwitchFrom, Advance, ObservationOk, NoneFree, KeepsDemands;
    SwitchFromKeeps(w, 0);
    SwitchLeavesNoneFree(w);
    SwitchKeepsDemands(w);
    SwitchStep(g, w);
    var s := SwitchFrom(w, 0);
    b := if DistLeft(s.driver) <= s.driver.brakingDist then WithDriver(s, s.driver.(mode := Breaking)) else s;
    NoneFreeAnyMode(s, b.driver.mode);
    BrakingKeeps(g, s, b.driver.mode);
    SameDemandsKeep(w.driver, s.driver, b.driver);
  }

  lemma {:induction false} BrakingKeeps(g: Track, w: World, mode: Mode)
    requires Shaped(g) && DriverOk(g, w) && w.driver.path.Some? && !Quiet(mode)
    ensures DriverOk(g, WithDriver(w, w.driver.(mode := mode)))
  {
  }

  /** What was demanded still is, or has been met, in the same order. */
  ghost predicate KeepsDemands(d: Driver, d': Driver) {
    && |d'.demands| == |d.demands|
    && forall k | 0 <= k < |d.demands| ::
         d'.demands[k] == d.demands[k] || d'.demands[k] == Demand(d.demands[k].num, NONE)
  }

  lemma {:induction false} SameDemandsKeep(d: Driver, a: Driver, b: Driver)
    requires KeepsDemands(d, a) && b.demands == a.demands
    ensures KeepsDemands(d, b)
  {
  }

  lemma {:induction false} SwitchKeepsDemands(w: World)
    requires Lockable(w.driver.demands, w.locks.owner) && w.driver.train != 0
    ensures KeepsDemands(w.driver, SwitchFrom(w, 0).driver)
  {
    SwitchFromKeeps(w, 0);
    var w' := SwitchFrom(w, 0);
    hide SwitchFrom;
    forall k | 0 <= k < |w.driver.demands|
      ensures w'.driver.demands[k] == w.driver.demands[k]
        || w'.driver.demands[k] == Demand(w.driver.demands[k].num, NONE)
    {
      SwitchMeets(w, 0, k);
    }
  }

  /** A running train brakes exactly when what is left is no more than it needs to brake; it
      goes along its segment, and leaves no lock free that it demands. */
  lemma {:induction false} RunsOrBrakes(g: Track, w: World, o: Observation)
    requires CanStep(g, w, o) && DriverOk(g, w) && w.driver.mode.RunningSegment?
    ensures var d, w' := w.driver, Perform(g, w, o);
      if o.pos in CurrentNodes(d) then
        && GoesAlong(g, d, w'.driver, o, if DistLeft(d) <= d.brakingDist then Breaking else RunningSegment)
        && Lockable(w'.driver.demands, w'.locks.owner) && NoneFree(w')
      else GaveUp(w')
  {
    var b := RanThenAdvances(g, w, o);
    assert Perform(g, w, o) == Ran(g, w, o);
    hide TenuresOk, DriverOk, Perform, Ran, Advance, LooksAhead, NoneFree, ObservationOk, GaveUp;
    if o.pos in CurrentNodes(w.driver) {
      AdvanceGoesAlong(g, b, o);
      AlongFrom(g, w.driver, b.driver, Advance(g, b, o).driver, o);
    } else {
      AdvanceDoes(g, b, o);
    }
  }

  lemma {:induction false} AlongFrom(g: Track, d: Driver, b: Driver, d': Driver, o: Observation)
    requires Shaped(g) && IndexOk(g, d) && d.path.Some? && Equipped(g, o.status.Keys)
    requires IndexOk(g, b) && b == d.(mode := b.mode, demands := b.demands) && GoesAlong(g, b, d', o, b.mode)
    ensures GoesAlong(g, d, d', o, b.mode)
  {
    hide LooksAhead;
    forall j: nat
      ensures IsNextSensor(g, b, j) <==> IsNextSensor(g, d, j)
    {
    }
  }

  /** A braking train does too. */
  lemma {:induction false} BrakesAlong(g: Track, w: World, o: Observation)
    requires CanStep(g, w, o) && DriverOk(g, w) && w.driver.mode.Breaking? && !o.stopped
    ensures var d, w' := w.driver, Perform(g, w, o);
      if o.pos in CurrentNodes(d) then GoesAlong(g, d, w'.driver, o, Breaking) else GaveUp(w')
  {
    hide TenuresOk, DriverOk, Advance, LooksAhead, NoneFree, ObservationOk, GaveUp;
    if o.pos in CurrentNodes(w.driver) {
      AdvanceGoesAlong(g, w, o);
    } else {
      AdvanceDoes(g, w, o);
    }
  }

  /** A train is to stop at the last node of its segment exactly if that is a sensor, unless
      it is all there is of the segment, or the destination is some way off it. */
  ghost predicate MustStopAt(g: Track, d: Driver, target: nat)
    requires Shaped(g) && IndexOk(g, d) && d.path.Some?
  {
    var seg := CurrentNodes(d);
    && |seg| > 1 && target == seg[|seg| - 1] && g[target].kind.Sensor?
    && (d.i + 1 < |d.path.value| || d.dest.None? || d.dest.value.offset == 0)
  }

  /** Once it stands, a train short of that sensor runs up to it, one past it reverses onto
      it, and in every other case the segment ends. Nothing else changes. */
  lemma {:induction false} StopsWhere(g: Track, w: World, o: Observation)
    requires CanStep(g, w, o) && DriverOk(g, w) && w.driver.mode.Breaking? && o.stopped
    ensures var d, w', target := w.driver, Perform(g, w, o), Last(CurrentNodes(w.driver));
      && w'.locks == w.locks && w'.driver == d.(mode := w'.driver.mode, reverseTimer := w'.driver.reverseTimer)
      && (w'.driver.mode.FixRunningUp? <==> MustStopAt(g, d, target) && o.pos != target)
      && (w'.driver.mode.FixWaitingToReverse1? <==> MustStopAt(g, d, target) && o.pos == target && !o.sitting)
      && (w'.driver.mode.FixWaitingToReverse1? ==> w'.driver.reverseTimer == 0)
      && (w'.driver.mode.EndSegment? <==> !MustStopAt(g, d, target) || (o.pos == target && o.sitting))
  {
    hide TenuresOk, DemandsOk, HoldsOk, ObservationOk;
  }

  /** Running up and back end on the sensor, where a train that ran back turns round again. */
  lemma {:induction false} FixesPosition(g: Track, w: World, o: Observation)
    requires CanStep(g, w, o) && (w.driver.mode.FixRunningUp? || w.driver.mode.FixRunningBack?)
    ensures var d, w' := w.driver, Perform(g, w, o);
      && w'.locks == w.locks
      && (!o.sitting ==> w' == w)
      && (o.sitting && d.mode.FixRunningUp? ==> w'.driver == d.(mode := EndSegment))
      && (o.sitting && d.mode.FixRunningBack? ==> w'.driver == d.(mode := FixWaitingToReverse2, reverseTimer := 0))
  {
  }

  /** At its end a segment's switches are given back. After the last the path is done; before
      another the train waits to reverse, and then starts at the first node of that one. */
  lemma {:induction false} EndsSegment(g: Track, w: World, o: Observation)
    requires CanStep(g, w, o) && DriverOk(g, w) && w.driver.mode.EndSegment?
    ensures var d, w' := w.driver, Perform(g, w, o);
      && HoldsNothing(w') && w'.driver.demands == []
      && (if d.i + 1 == |d.path.value| then GaveUp(w')
          else w'.driver == d.(i := d.i + 1, j := 0, mode := WaitingToReverse, reverseTimer := 0, demands := []))
  {
    UnlockedKeeps(w);
    hide TenuresOk, HoldsOk, ObservationOk;
  }

  // ----- Waiting -----

  /** The modes a driver only waits in, and what comes after. */
  function AfterWaiting(mode: Mode): Option<Mode> {
    match mode
    case WaitingToReverse => Some(AccelToStartSegment)
    case FixWaitingToReverse1 => Some(FixRunningBack)
    case FixWaitingToReverse2 => Some(EndSegment)
    case _ => None
  }

  ghost predicate Perceives(g: Track, seen: seq<Observation>)
    requires Shaped(g)
  {
    forall k | 0 <= k < |seen| :: ObservationOk(g, seen[k])
  }

  /** The driver performs once for each observation, the others standing still. */
  ghost function Performs(g: Track, w: World, seen: seq<Observation>): (w': World)
    requires Shaped(g) && Perceives(g, seen) && DriverOk(g, w) && Equipped(g, w.locks.owner.Keys)
    ensures DriverOk(g, w')
    decreases |seen|
  {
    if seen == [] then w
    else
      StepKeeps(g, w, DoPerform, seen[0]);
      Performs(g, Perform(g, w, seen[0]), seen[1..])
  }

  /** A driver that begins to wait waits six steps, whatever it sees, and at the sixth goes on
      as its mode says. */
  lemma {:induction false} WaitsItsTime(g: Track, w: World, seen: seq<Observation>)
    requires Shaped(g) && Perceives(g, seen) && DriverOk(g, w) && Equipped(g, w.locks.owner.Keys)
    requires AfterWaiting(w.driver.mode).Some? && w.driver.reverseTimer + |seen| <= 6 && seen != []
    requires 0 <= w.driver.reverseTimer
    ensures var n := w.driver.reverseTimer + |seen|;
      Performs(g, w, seen) ==
      WithDriver(w, w.driver.(reverseTimer := n,
                              mode := if n == 6 then AfterWaiting(w.driver.mode).value else w.driver.mode))
    decreases |seen|
  {
    var w1 := Perform(g, w, seen[0]);
    StepKeeps(g, w, DoPerform, seen[0]);
    assert w1 == WithDriver(w, Waited(w.driver, AfterWaiting(w.driver.mode).value)) by { hide TenuresOk, DriverOk; }
    hide TenuresOk, DriverOk, Perform, ObservationOk;
    if |seen| == 1 {
      assert Performs(g, w1, seen[1..]) == w1;
    } else {
      WaitsItsTime(g, w1, seen[1..]);
    }
  }

  /** A driver with a plan in hand is at the start of it; without one it has none. */
  ghost predicate Planned(d: Driver, d': Driver, dest: Option<Destination>, found: Option<seq<Segment>>) {
    if found.None? then d' == d.(path := None)
    else d' == d.(path := found, i := 0, j := 0, mode := AccelToStartSegment, dest := dest)
  }

  /** A driver that is to turn back waits as long, keeps no lock, and then plans anew, from
      where its train is to where it was going; it tries again as long as there is no way. */
  lemma {:induction false} WaitsToPlan(g: Track, w: World, seen: seq<Observation>)
    requires Shaped(g) && Perceives(g, seen) && DriverOk(g, w) && Equipped(g, w.locks.owner.Keys)
    requires w.driver.mode.InterruptedWaitingToReverse? && seen != []
    requires 0 <= w.driver.reverseTimer && w.driver.reverseTimer + |seen| <= 6
    ensures var n := w.driver.reverseTimer + |seen|;
      var w', waited := Performs(g, w, seen), w.driver.(reverseTimer := n);
      && w'.locks == w.locks
      && (if n < 6 then w'.driver == waited else Planned(waited, w'.driver, waited.dest, seen[|seen| - 1].rerouted))
    decreases |seen|
  {
    var w1 := Perform(g, w, seen[0]);
    StepKeeps(g, w, DoPerform, seen[0]);
    var waited := w.driver.(reverseTimer := w.driver.reverseTimer + 1);
    assert w1.locks == w.locks && (waited.reverseTimer < 6 ==> w1.driver == waited)
      && (waited.reverseTimer == 6 ==> Planned(waited, w1.driver, waited.dest, seen[0].rerouted)) by {
      hide TenuresOk, DriverOk;
    }
    hide TenuresOk, DriverOk, Perform, ObservationOk, Planned;
    if |seen| == 1 {
      assert Performs(g, w1, seen[1..]) == w1;
    } else {
      WaitsToPlan(g, w1, seen[1..]);
      assert seen[1..][|seen| - 2] == seen[|seen| - 1];
    }
  }

  // ----- Other actions -----

  /** A destination is planned for unless there is a path already. */
  lemma {:induction false} GoesTo(g: Track, w: World, dest: Destination, o: Observation)
    requires CanStep(g, w, o)
    ensures var w' := Step(g, w, DoGoto(dest), o);
      && w'.locks == w.locks
      && (if w.driver.path.Some? then w' == w else Planned(w.driver, w'.driver, Some(dest), o.rerouted))
  {
  }

  /** A train that is interrupted and may go on is where it was, with a braking distance for
      its speed now; in between it only brakes. */
  lemma {:induction false} InterruptedThenCleared(g: Track, w: World, o: Observation, o': Observation)
    requires CanStep(g, w, o) && ObservationOk(g, o') && w.driver.mode.RunningSegment? && !o.stopped
    ensures var stopping := Step(g, w, DoInterrupt(0), o);
      && stopping == WithDriver(w, w.driver.(mode := InterruptedBreaking))
      && CanStep(g, stopping, o') && Perform(g, stopping, o') == stopping
      && Step(g, stopping, DoClear, o') == WithDriver(w, w.driver.(brakingDist := o'.brakingFor))
  {
  }

  /** At another speed only the braking distance changes. A train that stands, or is not
      running along a segment, is not interrupted; nor is anything but such a train cleared. */
  lemma {:induction false} InterruptsOnlyRunning(g: Track, w: World, level: int, o: Observation)
    requires CanStep(g, w, o)
    ensures w.driver.mode.RunningSegment? && !o.stopped && level != 0 ==>
      Step(g, w, DoInterrupt(level), o) == WithDriver(w, w.driver.(brakingDist := o.brakingFor))
    ensures !w.driver.mode.RunningSegment? || o.stopped ==> Step(g, w, DoInterrupt(level), o) == w
    ensures !w.driver.mode.RunningSegment? && !w.driver.mode.InterruptedBreaking? ==> Step(g, w, DoClear, o) == w
  {
  }

  /** A train that was interrupted and stands turns back: at once without its locks, and after
      six steps with a new plan to the same destination, if there is one. */
  lemma {:induction false} TurnsBack(g: Track, w: World, o: Observation, seen: seq<Observation>)
    requires CanStep(g, w, o) && DriverOk(g, w) && Perceives(g, seen) && |seen| == 6
    ensures !(w.driver.mode.InterruptedBreaking? && o.stopped) ==> Step(g, w, DoTurn, o) == w
    ensures w.driver.mode.InterruptedBreaking? && o.stopped ==>
      var turned := Step(g, w, DoTurn, o);
      && HoldsNothing(turned) && DriverOk(g, turned) && Equipped(g, turned.locks.owner.Keys)
      && var w' := Performs(g, turned, seen);
      && w'.locks == turned.locks
      && Planned(w.driver.(mode := InterruptedWaitingToReverse, demands := [], reverseTimer := 6), w'.driver,
                 w.driver.dest, seen[5].rerouted)
  {
    if w.driver.mode.InterruptedBreaking? && o.stopped {
      StepKeeps(g, w, DoTurn, o);
      UnlockedKeeps(w);
      var turned := Step(g, w, DoTurn, o);
      hide TenuresOk, DriverOk, ObservationOk, Planned, Performs;
      WaitsToPlan(g, turned, seen);
    }
  }

  /** A reset driver has given up; its indices and its braking distance are nought. */
  lemma {:induction false} ResetClears(g: Track, w: World, o: Observation)
    requires CanStep(g, w, o) && DriverOk(g, w)
    ensures var w' := Step(g, w, DoReset, o);
      GaveUp(w') && w'.driver.i == 0 && w'.driver.j == 0 && w'.driver.brakingDist == 0
  {
    ResetGivesUp(w);
    hide TenuresOk, DriverOk, GaveUp;
  }

  /** A correction changes the distance left of the segment being driven, and nothing else. */
  lemma {:induction false} CorrectsDistance(g: Track, w: World, delta: int, o: Observation)
    requires CanStep(g, w, o)
    ensures var d, w' := w.driver, Step(g, w, DoCorrect(delta), o);
      && w'.locks == w.locks && w'.driver == d.(path := w'.driver.path)
      && (d.path.None? ==> w' == w)
      && (d.path.Some? ==>
            && SamePlan(d, w'.driver) && DistLeft(w'.driver) == DistLeft(d) + delta
            && forall k | 0 <= k < |d.path.value| && k != d.i :: w'.driver.path.value[k] == d.path.value[k])
  {
  }

  // ----- Until the next sensor -----

  lemma {:induction false} MindedStays(d: Driver, d': Driver, e: Demand)
    requires KeepsDemands(d, d') && Minded(d, e)
    ensures Minded(d', e)
  {
    var k :| 0 <= k < |d.demands| && (d.demands[k] == e || d.demands[k] == Demand(e.num, NONE));
    assert d'.demands[k] in d'.demands;
  }

  /** The driver is under way at node `j` of its segment `i`. */
  predicate UnderWay(d: Driver, i: nat, j: nat) {
    d.path.Some? && d.i == i && d.j == j && !Quiet(d.mode)
  }

  lemma {:induction false} AdvanceStays(g: Track, w: World, o: Observation)
    requires CanStep(g, w, o) && DriverOk(g, w) && w.driver.path.Some?
    requires UnderWay(Advance(g, w, o).driver, w.driver.i, w.driver.j)
    ensures Advance(g, w, o) == w
  {
    AdvanceDoes(g, w, o);
    hide TenuresOk, DriverOk, Advance, LooksAhead, NoneFree, ObservationOk;
    if j: nat :| IsNextSensor(g, w.driver, j) {
    }
  }

  lemma {:induction false} RunMinds(g: Track, w: World, o: Observation)
    requires CanStep(g, w, o) && DriverOk(g, w) && w.driver.mode.RunningSegment?
    requires UnderWay(Ran(g, w, o).driver, w.driver.i, w.driver.j)
    ensures KeepsDemands(w.driver, Ran(g, w, o).driver)
  {
    var b := RanThenAdvances(g, w, o);
    hide TenuresOk, DriverOk, Ran, Advance, ObservationOk, KeepsDemands, NoneFree;
    AdvanceStays(g, b, o);
  }

  lemma {:induction false} PerformMinds(g: Track, w: World, o: Observation)
    requires CanStep(g, w, o) && DriverOk(g, w) && UnderWay(w.driver, w.driver.i, w.driver.j)
    requires UnderWay(Perform(g, w, o).driver, w.driver.i, w.driver.j)
    ensures KeepsDemands(w.driver, Perform(g, w, o).driver)
  {
    hide TenuresOk, DriverOk, Ran, Advance, ObservationOk, UnlockFrom;
    match w.driver.mode
    case RunningSegment => hide KeepsDemands; RunMinds(g, w, o);
    case Breaking => if !o.stopped { AdvanceStays(g, w, o); }
    case _ =>
  }

  /** Within a segment and short of its next sensor, no step forgets a demand unmet. */
  lemma {:induction false} StepMinds(g: Track, w: World, a: Action, o: Observation)
    requires CanStep(g, w, o) && DriverOk(g, w) && UnderWay(w.driver, w.driver.i, w.driver.j)
    requires UnderWay(Step(g, w, a, o).driver, w.driver.i, w.driver.j)
    ensures KeepsDemands(w.driver, Step(g, w, a, o).driver)
  {
    hide TenuresOk, DriverOk, Perform, ObservationOk, UnlockFrom;
    if a.DoPerform? {
      hide KeepsDemands;
      PerformMinds(g, w, o);
    }
  }

  // ----- Whole runs -----

  ghost predicate TurnsOk(g: Track, trains: set<int>, turns: seq<Turn>)
    requires Shaped(g)
  {
    forall k | 0 <= k < |turns| :: TurnOk(g, trains, turns[k])
  }

  /** Throughout the run, train `t` is under way at node `j` of its segment `i`. */
  ghost predicate OnLeg(g: Track, f: Fleet, turns: seq<Turn>, t: int, i: nat, j: nat)
    requires Shaped(g) && FleetOk(g, f) && TurnsOk(g, f.drivers.Keys, turns) && t in f.drivers
    decreases |turns|
  {
    UnderWay(f.drivers[t], i, j) && (turns != [] ==> OnLeg(g, Move(g, f, turns[0]), turns[1..], t, i, j))
  }

  lemma {:induction false} MoveMinds(g: Track, f: Fleet, turn: Turn, t: int)
    requires Shaped(g) && FleetOk(g, f) && TurnOk(g, f.drivers.Keys, turn) && t in f.drivers
    requires UnderWay(f.drivers[t], f.drivers[t].i, f.drivers[t].j)
    requires UnderWay(Move(g, f, turn).drivers[t], f.drivers[t].i, f.drivers[t].j)
    ensures KeepsDemands(f.drivers[t], Move(g, f, turn).drivers[t])
  {
    MoveKeeps(g, f, turn);
    assert DriverOk(g, World(f.drivers[turn.train], f.locks)) && f.drivers[turn.train].train == turn.train;
    hide FleetOk, Step, DriverOk, CanStep;
    if t == turn.train {
      StepMinds(g, World(f.drivers[t], f.locks), turn.action, turn.seen);
    }
  }

  lemma {:induction false} LegMinds(g: Track, f: Fleet, turns: seq<Turn>, t: int, e: Demand)
    requires Shaped(g) && FleetOk(g, f) && TurnsOk(g, f.drivers.Keys, turns) && t in f.drivers
    requires OnLeg(g, f, turns, t, f.drivers[t].i, f.drivers[t].j) && Minded(f.drivers[t], e)
    ensures var f' := RunAll(g, f, turns); FleetOk(g, f') && t in f'.drivers && Minded(f'.drivers[t], e)
    decreases |turns|
  {
    hide FleetOk, TurnOk, Move, Minded;
    if turns == [] {
    } else {
      assert OnLeg(g, Move(g, f, turns[0]), turns[1..], t, f.drivers[t].i, f.drivers[t].j);
      MoveMinds(g, f, turns[0], t);
      MindedStays(f.drivers[t], Move(g, f, turns[0]).drivers[t], e);
      LegMinds(g, Move(g, f, turns[0]), turns[1..], t, e);
    }
  }

  /** The driver started a segment, or has just gone on to another sensor of it. */
  predicate Sets(d: Driver, d': Driver) {
    && d.path.Some? && d'.path.Some?
    && (d.mode.AccelToStartSegment? || (d'.i == d.i && d'.j > d.j))
  }

  lemma {:induction false} PerformLooks(g: Track, w: World, o: Observation)
    requires CanStep(g, w, o) && DriverOk(g, w) && Sets(w.driver, Perform(g, w, o).driver)
    ensures var d' := Perform(g, w, o).driver; IndexOk(g, d') && LooksAhead(g, d', o)
  {
    var mode := w.driver.mode;
    StepKeeps(g, w, DoPerform, o);
    if mode.AccelToStartSegment? {
      StartsSegment(g, w, o);
    } else if mode.RunningSegment? {
      RunsOrBrakes(g, w, o);
    } else if mode.Breaking? && !o.stopped {
      BrakesAlong(g, w, o);
    }
    hide TenuresOk, LooksAhead, NoneFree, ObservationOk, Started, Ran, Advance, UnlockFrom, DemandsOk, HoldsOk;
  }

  /** Whatever branch was set against the train's path when it last looked ahead: until it
      looks again or its segment ends, its driver holds that switch, which it has then set, or
      demands it still. */
  lemma {:induction false} BranchesAreMinded(g: Track, f: Fleet, look: Turn, turns: seq<Turn>, k: nat, e: Demand)
    requires Shaped(g) && FleetOk(g, f) && TurnOk(g, f.drivers.Keys, look) && TurnsOk(g, f.drivers.Keys, turns)
    requires look.action.DoPerform? && Sets(f.drivers[look.train], Move(g, f, look).drivers[look.train])
    requires var d := Move(g, f, look).drivers[look.train];
      && IndexOk(g, d) && Against(g, d, look.seen, k, e)
      && OnLeg(g, Move(g, f, look), turns, look.train, d.i, d.j)
    ensures var t, f' := look.train, RunAll(g, Move(g, f, look), turns);
      && t in f'.drivers && e.num in f'.locks.owner
      && (e in f'.drivers[t].demands || f'.locks.owner[e.num] == t)
  {
    var t := look.train;
    MoveKeeps(g, f, look);
    var w := World(f.drivers[t], f.locks);
    assert DriverOk(g, w) && w.driver.train == t;
    hide FleetOk, DriverOk, CanStep, Perform, OnLeg, Against, RunAll, Sets;
    PerformLooks(g, w, look.seen);
    LegMinds(g, Move(g, f, look), turns, t, e);
    MindedIsHeld(g, RunAll(g, Move(g, f, look), turns), t, e);
  }

  lemma {:induction false} MindedIsHeld(g: Track, f: Fleet, t: int, e: Demand)
    requires Shaped(g) && FleetOk(g, f) && t in f.drivers && Minded(f.drivers[t], e)
    ensures e.num in f.locks.owner && (e in f.drivers[t].demands || f.locks.owner[e.num] == t)
  {
    assert DriverOk(g, World(f.drivers[t], f.locks));
    var d := f.drivers[t];
    var m :| 0 <= m < |d.demands| && (d.demands[m] == e || d.demands[m] == Demand(e.num, NONE));
  }

  /** And when a train that is starting or running has performed, nothing it still demands is
      free for it to take. */
  lemma {:induction false} NothingFreeIsLeft(g: Track, f: Fleet, turn: Turn)
    requires Shaped(g) && FleetOk(g, f) && TurnOk(g, f.drivers.Keys, turn) && turn.action.DoPerform?
    requires f.drivers[turn.train].mode.AccelToStartSegment? || f.drivers[turn.train].mode.RunningSegment?
    ensures var f' := Move(g, f, turn);
      var w' := World(f'.drivers[turn.train], f'.locks);
      Lockable(w'.driver.demands, w'.locks.owner) && NoneFree(w')
  {
    var w := World(f.drivers[turn.train], f.locks);
    MoveKeeps(g, f, turn);
    assert DriverOk(g, w);
    hide FleetOk, DriverOk, CanStep, Perform, LooksAhead, NoneFree, GoesAlong;
    if w.driver.mode.AccelToStartSegment? {
      StartsSegment(g, w, turn.seen);
    } else {
      RunsOrBrakes(g, w, turn.seen);
      if turn.seen.pos !in CurrentNodes(w.driver) {
        NoDemandIsFree(Perform(g, w, turn.seen));
      }
    }
  }

  lemma {:induction false} NoDemandIsFree(w: World)
    requires w.driver.demands == []
    ensures Lockable(w.driver.demands, w.locks.owner) && NoneFree(w)
  {
  }
}
