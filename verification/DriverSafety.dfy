/** What every step of every driver keeps: indices into its path that can be used, and locks
    that are held by exactly the driver that remembers holding them. */
module DriverSafety {
  import opened TrackGraph
  import opened Wrappers
  import opened FindPath
  import opened DriverSteps

  // ----- Lock tenures -----

  /** A switch between two of its locks: free, or held, with the commands sent since. */
  datatype Tenure = NotHeld | Held(train: int, commands: nat) | Broken

  ghost function TenureAfter(log: seq<Event>, num: int): Tenure {
    if log == [] then NotHeld
    else
      var t := TenureAfter(log[..|log| - 1], num);
      var e := log[|log| - 1];
      if e.num != num then t
      else
        match e
        case Acquire(_, train) => if t.NotHeld? && train != 0 then Held(train, 0) else Broken
        case Command(_, train, _) => if t.Held? && t.train == train then Held(train, t.commands + 1) else Broken
        case Release(_, train) => if t == Held(train, 1) then NotHeld else Broken
  }

  /** In the whole history each tenure of `num` was taken while it was free, ended by its
      holder, and saw exactly one command; and the lock says who holds it now. */
  ghost predicate TenureOk(locks: Locks, num: int)
    requires num in locks.owner
  {
    TenureAfter(locks.log, num) == if locks.owner[num] == 0 then NotHeld else Held(locks.owner[num], 1)
  }

  ghost predicate TenuresOk(locks: Locks) {
    forall num | num in locks.owner :: TenureOk(locks, num)
  }

  // ----- The invariant of one driver -----

  /** The driver holds a lock exactly if it remembers having set the switch. */
  ghost predicate HoldsOk(d: Driver, owner: map<int, int>) {
    forall num | num in owner :: owner[num] == d.train <==> Demand(num, NONE) in d.demands
  }

  predicate Quiet(mode: Mode) {
    mode.Thinking? || mode.AccelToStartSegment? || mode.WaitingToReverse? || mode.InterruptedWaitingToReverse?
  }

  ghost predicate AllWanted(g: Track, seg: seq<nat>, lo: nat, demands: seq<Demand>)
    requires Shaped(g) && InTrack(g, seg)
  {
    forall k | 0 <= k < |demands| && demands[k].dir != NONE :: Wanted(g, seg, lo, demands[k])
  }

  /** What is still demanded is what the segment ahead needs. */
  ghost predicate DemandsOk(g: Track, d: Driver)
    requires Shaped(g) && IndexOk(g, d)
  {
    && (Quiet(d.mode) ==> d.demands == [])
    && (d.path.Some? ==> AllWanted(g, CurrentNodes(d), d.j + 1, d.demands))
  }

  ghost predicate DriverOk(g: Track, w: World)
    requires Shaped(g)
  {
    && w.driver.train != 0
    && IndexOk(g, w.driver) && DemandsOk(g, w.driver)
    && Lockable(w.driver.demands, w.locks.owner)
    && HoldsOk(w.driver, w.locks.owner)
  }

  /** A step of train `t` takes free locks and gives back its own; and it sets only switches
      that the segment needs. */
  ghost predicate FairTo(t: int, a: Locks, b: Locks) {
    && a.owner.Keys == b.owner.Keys
    && (forall num | num in a.owner :: b.owner[num] == a.owner[num]
          || (a.owner[num] == 0 && b.owner[num] == t) || (a.owner[num] == t && b.owner[num] == 0))
    && (TenuresOk(a) ==> TenuresOk(b))
    && a.log <= b.log
  }

  lemma {:induction false} FairRefl(t: int, a: Locks)
    ensures FairTo(t, a, a)
  {
  }

  // ----- Locking and unlocking -----

  /** The driver and its locks, whatever the mode. */
  ghost predicate LockOk(w: World) {
    w.driver.train != 0 && Lockable(w.driver.demands, w.locks.owner) && HoldsOk(w.driver, w.locks.owner)
  }

  lemma {:induction false} TakenKeeps(w: World, k: nat)
    requires LockOk(w) && k < |w.driver.demands|
    requires w.driver.demands[k].dir != NONE && w.locks.owner[w.driver.demands[k].num] == 0
    ensures LockOk(Taken(w, k)) && FairTo(w.driver.train, w.locks, Taken(w, k).locks)
  {
    var w' := Taken(w, k);
    var Demand(num, dir) := w.driver.demands[k];
    var t, log, log' := w.driver.train, w.locks.log, w'.locks.log;
    assert log'[..|log| + 1] == log + [Acquire(num, t)];
    assert (log + [Acquire(num, t)])[..|log|] == log;
    assert Demand(num, NONE) == w'.driver.demands[k];
    assert Demand(num, NONE) !in w.driver.demands;
    forall s | s in w'.locks.owner
      ensures w'.locks.owner[s] == t <==> Demand(s, NONE) in w'.driver.demands
    {
      if s != num {
        if Demand(s, NONE) in w.driver.demands {
          var m :| 0 <= m < |w.driver.demands| && w.driver.demands[m] == Demand(s, NONE);
          assert w'.driver.demands[m] == Demand(s, NONE);
        }
      }
    }
    forall s | s in w'.locks.owner && TenuresOk(w.locks)
      ensures TenureOk(w'.locks, s)
    {
      assert TenureOk(w.locks, s);
      assert TenureAfter(log + [Acquire(num, t)], s) == if s == num then Held(t, 0) else TenureAfter(log, s);
    }
  }

  lemma {:induction false} SwitchKeeps(w: World, k: nat)
    requires LockOk(w)
    ensures LockOk(SwitchFrom(w, k)) && FairTo(w.driver.train, w.locks, SwitchFrom(w, k).locks)
    decreases |w.driver.demands| - k
  {
    if k >= |w.driver.demands| {
    } else {
      var Demand(num, dir) := w.driver.demands[k];
      if dir == NONE || w.locks.owner[num] != 0 {
        SwitchKeeps(w, k + 1);
      } else {
        TakenKeeps(w, k);
        hide Taken;
        SwitchKeeps(Taken(w, k), k + 1);
      }
    }
  }

  lemma {:induction false} FairTrans(t: int, a: Locks, b: Locks, c: Locks)
    requires FairTo(t, a, b) && FairTo(t, b, c)
    ensures FairTo(t, a, c)
  {
  }

  lemma {:induction false} ReleasedFair(locks: Locks, num: int, t: int)
    requires num in locks.owner && t != 0 && locks.owner[num] == t
    ensures FairTo(t, locks, Released(locks, num, t))
  {
  }

  lemma {:induction false} UnlockKeeps(d: Driver, locks: Locks, k: nat)
    requires Lockable(d.demands, locks.owner) && d.train != 0
    ensures FairTo(d.train, locks, UnlockFrom(d, locks, k))
    ensures forall m | k <= m < |d.demands| :: UnlockFrom(d, locks, k).owner[d.demands[m].num] != d.train
    ensures forall num | num in locks.owner && locks.owner[num] != d.train ::
      UnlockFrom(d, locks, k).owner[num] == locks.owner[num]
    decreases |d.demands| - k
  {
    if k >= |d.demands| {
    } else {
      var num := d.demands[k].num;
      var next := if locks.owner[num] == d.train then Released(locks, num, d.train) else locks;
      if locks.owner[num] == d.train {
        ReleasedFair(locks, num, d.train);
      }
      UnlockKeeps(d, next, k + 1);
      hide TenuresOk;
      FairTrans(d.train, locks, next, UnlockFrom(d, next, k + 1));
    }
  }

  /** Unlocking leaves the driver with no lock and no demand. */
  lemma {:induction false} UnlockedKeeps(w: World)
    requires LockOk(w)
    ensures LockOk(Unlocked(w)) && FairTo(w.driver.train, w.locks, Unlocked(w).locks)
    ensures forall num | num in w.locks.owner :: Unlocked(w).locks.owner[num] != w.driver.train
  {
    UnlockKeeps(w.driver, w.locks, 0);
    hide TenuresOk;
    forall num | num in w.locks.owner
      ensures Unlocked(w).locks.owner[num] != w.driver.train
    {
      if Demand(num, NONE) in w.driver.demands {
        var m :| 0 <= m < |w.driver.demands| && w.driver.demands[m] == Demand(num, NONE);
      }
    }
  }

  // ----- Steps -----

  lemma {:induction false} DemandingKeeps(g: Track, w: World, o: Observation)
    requires CanStep(g, w, o) && w.driver.path.Some? && LockOk(w) && w.driver.demands == []
    ensures LockOk(WithDriver(w, Demanding(g, w.driver, o)))
    ensures var d := Demanding(g, w.driver, o); AllWanted(g, CurrentNodes(d), d.j + 1, d.demands)
  {
  }

  lemma {:induction false} SwitchDemands(g: Track, w: World, k: nat, seg: seq<nat>, lo: nat)
    requires Shaped(g) && InTrack(g, seg) && Lockable(w.driver.demands, w.locks.owner)
    requires AllWanted(g, seg, lo, w.driver.demands)
    ensures AllWanted(g, seg, lo, SwitchFrom(w, k).driver.demands)
    ensures CommandsWanted(g, seg, lo, w.driver.train, w.locks.log, SwitchFrom(w, k).locks.log)
    decreases |w.driver.demands| - k
  {
    if k >= |w.driver.demands| {
    } else {
      var Demand(num, dir) := w.driver.demands[k];
      if dir == NONE || w.locks.owner[num] != 0 {
        SwitchDemands(g, w, k + 1, seg, lo);
      } else {
        assert Wanted(g, seg, lo, Demand(num, dir));
        SwitchDemands(g, Taken(w, k), k + 1, seg, lo);
      }
    }
  }

  /** Every command sent since `log` set a switch the way the segment ahead needs it. */
  ghost predicate CommandsWanted(g: Track, seg: seq<nat>, lo: nat, t: int, log: seq<Event>, log': seq<Event>)
    requires Shaped(g) && InTrack(g, seg)
  {
    && log <= log'
    && forall m | |log| <= m < |log'| && log'[m].Command? ::
         log'[m].train == t && Wanted(g, seg, lo, Demand(log'[m].num, log'[m].dir))
  }

  ghost predicate SamePlan(d: Driver, d': Driver) {
    && d.path.Some? && d'.path.Some? && |d'.path.value| == |d.path.value|
    && forall k | 0 <= k < |d.path.value| :: d'.path.value[k].nodes == d.path.value[k].nodes
  }

  /** Within a segment the index only grows. It starts again at 0 with the next segment of
      the plan; and with a new plan, which only a driver that waits to turn back makes. */
  ghost predicate IndexMoves(d: Driver, d': Driver)
    requires d.path.Some?
  {
    || d'.path.None?
    || (d'.j == 0 && d.mode.InterruptedWaitingToReverse?)
    || (SamePlan(d, d') && d'.i == d.i + 1 && d'.j == 0)
    || (SamePlan(d, d') && d'.i == d.i && d.j <= d'.j)
  }

  ghost predicate StepOk(g: Track, w: World, w': World)
    requires Shaped(g) && IndexOk(g, w.driver)
  {
    && DriverOk(g, w')
    && w'.driver.train == w.driver.train
    && FairTo(w.driver.train, w.locks, w'.locks)
    && (if w.driver.path.Some? then
          && IndexMoves(w.driver, w'.driver)
          && CommandsWanted(g, CurrentNodes(w.driver), w.driver.j + 1, w.driver.train, w.locks.log, w'.locks.log)
        else w'.locks == w.locks)
  }

  lemma {:induction false} UnlockSendsNothing(d: Driver, locks: Locks, k: nat)
    requires Lockable(d.demands, locks.owner)
    ensures var log := UnlockFrom(d, locks, k).log;
      locks.log <= log && forall m | |locks.log| <= m < |log| :: !log[m].Command?
    decreases |d.demands| - k
  {
    if k >= |d.demands| {
    } else {
      var num := d.demands[k].num;
      UnlockSendsNothing(d, if locks.owner[num] == d.train then Released(locks, num, d.train) else locks, k + 1);
    }
  }

  lemma {:induction false} ResetKeeps(g: Track, w: World)
    requires Shaped(g) && DriverOk(g, w)
    ensures StepOk(g, w, Reset(w)) || w.driver.path.None?
    ensures DriverOk(g, Reset(w)) && FairTo(w.driver.train, w.locks, Reset(w).locks)
  {
    var d := w.driver.(path := None, i := 0, j := 0, dest := None, brakingDist := 0, mode := Thinking);
    UnlockedKeeps(World(d, w.locks));
    UnlockSendsNothing(d, w.locks, 0);
    hide TenuresOk;
  }

  /** A lock-free step: only the mode, the timer or the numbers change. */
  lemma {:induction false} SameLocksKeeps(g: Track, w: World, d: Driver)
    requires Shaped(g) && DriverOk(g, w) && IndexOk(g, d)
    requires d.train == w.driver.train && d.demands == w.driver.demands
    requires SamePlan(w.driver, d) && d.i == w.driver.i && d.j == w.driver.j
    requires Quiet(d.mode) ==> Quiet(w.driver.mode)
    ensures StepOk(g, w, WithDriver(w, d))
  {
  }

  lemma {:induction false} SwitchStep(g: Track, w: World)
    requires Shaped(g) && DriverOk(g, w) && w.driver.path.Some?
    ensures StepOk(g, w, SwitchFrom(w, 0))
  {
    SwitchKeeps(w, 0);
    SwitchDemands(g, w, 0, CurrentNodes(w.driver), w.driver.j + 1);
    SwitchFromKeeps(w, 0);
    hide TenuresOk;
  }

  lemma {:induction false} StepTrans(g: Track, a: World, b: World, c: World)
    requires Shaped(g) && IndexOk(g, a.driver) && a.driver.path.Some? && StepOk(g, a, b) && StepOk(g, b, c)
    requires SamePlan(a.driver, b.driver) && b.driver.i == a.driver.i && a.driver.j <= b.driver.j
    requires b.driver.mode.InterruptedWaitingToReverse? ==> a.driver.mode.InterruptedWaitingToReverse?
    ensures StepOk(g, a, c)
  {
  }

  /** The driver at its next sensor, its old locks given back, with what lies ahead demanded. */
  ghost function AtNextSensor(g: Track, w: World, o: Observation, next: nat): World
    requires CanStep(g, w, o) && w.driver.path.Some? && next < |CurrentNodes(w.driver)|
  {
    var u := Unlocked(World(w.driver.(j := next), w.locks));
    World(Demanding(g, u.driver, o), u.locks)
  }

  lemma {:induction false} AtNextSensorLocks(g: Track, w: World, o: Observation, next: nat)
    requires CanStep(g, w, o) && DriverOk(g, w) && w.driver.path.Some? && !Quiet(w.driver.mode)
    requires w.driver.j <= next < |CurrentNodes(w.driver)| && g[CurrentNodes(w.driver)[next]].kind.Sensor?
    ensures var w' := AtNextSensor(g, w, o, next);
      && DriverOk(g, w') && FairTo(w.driver.train, w.locks, w'.locks) && w'.driver.train == w.driver.train
      && w.locks.log <= w'.locks.log && forall m | |w.locks.log| <= m < |w'.locks.log| :: !w'.locks.log[m].Command?
  {
    var moved := World(w.driver.(j := next), w.locks);
    UnlockedKeeps(moved);
    UnlockSendsNothing(moved.driver, w.locks, 0);
    var u := Unlocked(moved);
    DemandingKeeps(g, u, o);
    hide TenuresOk, FairTo, Wanted, DemandsFrom, UnlockFrom;
  }

  lemma {:induction false} AtNextSensorKeeps(g: Track, w: World, o: Observation, next: nat)
    requires CanStep(g, w, o) && DriverOk(g, w) && w.driver.path.Some? && !Quiet(w.driver.mode)
    requires w.driver.j <= next < |CurrentNodes(w.driver)| && g[CurrentNodes(w.driver)[next]].kind.Sensor?
    ensures var w' := AtNextSensor(g, w, o, next);
      Lockable(w'.driver.demands, w'.locks.owner) && DriverOk(g, w') && StepOk(g, w, w')
        && SamePlan(w.driver, w'.driver) && w'.driver.i == w.driver.i
      && w'.driver.j == next && w'.driver.mode == w.driver.mode
  {
    AtNextSensorLocks(g, w, o, next);
    hide TenuresOk, FairTo, DriverOk, Wanted, DemandsFrom, UnlockFrom;
  }

  lemma {:induction false} StayKeeps(g: Track, w: World)
    requires Shaped(g) && DriverOk(g, w)
    ensures StepOk(g, w, w)
  {
    FairRefl(w.driver.train, w.locks);
    hide DriverOk, FairTo;
  }

  /** Passing the next sensor: the old locks go, and what lies ahead is demanded. */
  lemma {:induction false} AdvanceKeeps(g: Track, w: World, o: Observation)
    requires CanStep(g, w, o) && DriverOk(g, w) && w.driver.path.Some? && !Quiet(w.driver.mode)
    ensures StepOk(g, w, Advance(g, w, o))
  {
    hide StepOk, DriverOk, TenuresOk, SwitchFrom, Demanding, Unlocked, NextSensorIndex, Reset, ObservationOk,
      Equipped, Lockable;
    var seg := CurrentNodes(w.driver);
    var next := NextSensorIndex(g, seg, w.driver.j + 1);
    if seg[w.driver.j] == o.pos {
      StayKeeps(g, w);
    } else if o.pos !in seg {
      ResetKeeps(g, w);
    } else if next == |seg| {
      StayKeeps(g, w);
    } else {
      var w' := AtNextSensor(g, w, o, next);
      AtNextSensorKeeps(g, w, o, next);
      assert Advance(g, w, o) == SwitchFrom(w', 0);
      SwitchStep(g, w');
      StepTrans(g, w, w', SwitchFrom(w', 0));
    }
  }

  lemma {:induction false} RanKeeps(g: Track, w: World, o: Observation)
    requires CanStep(g, w, o) && DriverOk(g, w) && w.driver.mode.RunningSegment?
    ensures StepOk(g, w, Ran(g, w, o))
  {
    SwitchFromKeeps(w, 0);
    SwitchStep(g, w);
    var s := SwitchFrom(w, 0);
    var b := if DistLeft(s.driver) <= s.driver.brakingDist then WithDriver(s, s.driver.(mode := Breaking)) else s;
    assert StepOk(g, w, b);
    AdvanceKeeps(g, b, o);
    hide StepOk, SwitchFrom, Advance;
    StepTrans(g, w, b, Advance(g, b, o));
  }

  lemma {:induction false} StartedKeeps(g: Track, w: World, o: Observation)
    requires CanStep(g, w, o) && DriverOk(g, w) && w.driver.mode.AccelToStartSegment?
    ensures StepOk(g, w, Started(g, w, o))
  {
    var d := w.driver.(brakingDist := o.brakingFor);
    DemandingKeeps(g, WithDriver(w, d), o);
    var demanding := World(Demanding(g, d, o).(mode := RunningSegment), w.locks);
    FairRefl(d.train, w.locks);
    assert StepOk(g, w, demanding) by { hide TenuresOk; }
    SwitchStep(g, demanding);
    SwitchModeOnly(WithDriver(demanding, Demanding(g, d, o)), 0, RunningSegment);
    hide TenuresOk, StepOk, SwitchFrom, Demanding;
    StepTrans(g, w, demanding, SwitchFrom(demanding, 0));
  }

  lemma {:induction false} SwitchModeOnly(w: World, k: nat, mode: Mode)
    requires Lockable(w.driver.demands, w.locks.owner)
    ensures var s := SwitchFrom(w, k);
      SwitchFrom(WithDriver(w, w.driver.(mode := mode)), k) == WithDriver(s, s.driver.(mode := mode))
    decreases |w.driver.demands| - k
  {
    if k >= |w.driver.demands| {
    } else {
      var Demand(num, dir) := w.driver.demands[k];
      if dir == NONE || w.locks.owner[num] != 0 {
        SwitchModeOnly(w, k + 1, mode);
      } else {
        SwitchModeOnly(Taken(w, k), k + 1, mode);
        assert Taken(WithDriver(w, w.driver.(mode := mode)), k) ==
          WithDriver(Taken(w, k), Taken(w, k).driver.(mode := mode));
      }
    }
  }

  lemma {:induction false} EndedKeeps(g: Track, w: World)
    requires Shaped(g) && DriverOk(g, w) && w.driver.mode.EndSegment?
    ensures StepOk(g, w, Ended(w))
  {
    UnlockedKeeps(w);
    UnlockSendsNothing(w.driver, w.locks, 0);
    hide TenuresOk;
  }

  lemma {:induction false} TurnedBackKeeps(g: Track, w: World, o: Observation)
    requires Shaped(g) && DriverOk(g, w)
    ensures StepOk(g, w, TurnedBack(w, o))
  {
    FairRefl(w.driver.train, w.locks);
    UnlockedKeeps(w);
    UnlockSendsNothing(w.driver, w.locks, 0);
    hide TenuresOk;
  }

  /** A driver whose waiting is over and that plans anew, or goes on waiting. */
  lemma {:induction false} ReplannedKeeps(g: Track, w: World, o: Observation)
    requires CanStep(g, w, o) && DriverOk(g, w) && w.driver.mode.InterruptedWaitingToReverse?
    ensures StepOk(g, w, Perform(g, w, o))
  {
    FairRefl(w.driver.train, w.locks);
    hide TenuresOk, FairTo;
  }

  lemma {:induction false} WaitedKeeps(g: Track, w: World, mode: Mode)
    requires Shaped(g) && DriverOk(g, w) && w.driver.path.Some? && !mode.Thinking?
    requires Quiet(mode) ==> Quiet(w.driver.mode)
    ensures StepOk(g, w, WithDriver(w, Waited(w.driver, mode)))
  {
    hide StepOk;
    SameLocksKeeps(g, w, Waited(w.driver, mode));
  }

  lemma {:induction false} PerformKeeps(g: Track, w: World, o: Observation)
    requires CanStep(g, w, o) && DriverOk(g, w)
    ensures StepOk(g, w, Perform(g, w, o))
  {
    hide StepOk, TenuresOk, FairTo, DemandsOk, HoldsOk, ObservationOk, Equipped, Lockable, Advance, Ended, Started,
      Ran, Stopped, Waited;
    var d := w.driver;
    match d.mode
    case AccelToStartSegment => StartedKeeps(g, w, o);
    case RunningSegment => RanKeeps(g, w, o);
    case Breaking =>
      if !o.stopped {
        AdvanceKeeps(g, w, o);
      } else {
        StoppedKeeps(g, w, o);
      }
    case EndSegment => EndedKeeps(g, w);
    case WaitingToReverse => WaitedKeeps(g, w, AccelToStartSegment);
    case FixWaitingToReverse1 => WaitedKeeps(g, w, FixRunningBack);
    case FixWaitingToReverse2 => WaitedKeeps(g, w, EndSegment);
    case FixRunningUp =>
      StayKeeps(g, w);
      SameLocksKeeps(g, w, d.(mode := EndSegment));
    case FixRunningBack =>
      StayKeeps(g, w);
      SameLocksKeeps(g, w, d.(mode := FixWaitingToReverse2, reverseTimer := 0));
    case InterruptedWaitingToReverse => ReplannedKeeps(g, w, o);
    case _ => StayKeeps(g, w);
  }

  lemma {:induction false} StoppedKeeps(g: Track, w: World, o: Observation)
    requires CanStep(g, w, o) && DriverOk(g, w) && w.driver.mode.Breaking?
    ensures StepOk(g, w, WithDriver(w, Stopped(g, w.driver, o)))
  {
    hide StepOk;
    SameLocksKeeps(g, w, Stopped(g, w.driver, o));
  }

  /** Every step of a driver keeps its indices usable and its locks in order. */
  lemma {:induction false} StepKeeps(g: Track, w: World, a: Action, o: Observation)
    requires CanStep(g, w, o) && DriverOk(g, w)
    ensures DriverOk(g, Step(g, w, a, o))
    ensures FairTo(w.driver.train, w.locks, Step(g, w, a, o).locks)
    ensures Step(g, w, a, o).driver.train == w.driver.train
    ensures w.driver.path.Some? ==> StepOk(g, w, Step(g, w, a, o))
  {
    FairRefl(w.driver.train, w.locks);
    match a
    case DoPerform => PerformKeeps(g, w, o);
    case DoTurn => TurnedBackKeeps(g, w, o);
    case DoReset => ResetKeeps(g, w);
    case _ => hide TenuresOk, FairTo;
  }

  // ----- All drivers together -----

  datatype Fleet = Fleet(drivers: map<int, Driver>, locks: Locks)

  ghost predicate FleetOk(g: Track, f: Fleet)
    requires Shaped(g)
  {
    && TenuresOk(f.locks) && Equipped(g, f.locks.owner.Keys)
    && (forall t | t in f.drivers :: f.drivers[t].train == t && DriverOk(g, World(f.drivers[t], f.locks)))
    && (forall num | num in f.locks.owner :: f.locks.owner[num] == 0 || f.locks.owner[num] in f.drivers)
  }

  /** What one train does next, and what is known about it then. */
  datatype Turn = Turn(train: int, action: Action, seen: Observation)

  ghost predicate TurnOk(g: Track, trains: set<int>, turn: Turn)
    requires Shaped(g)
  {
    turn.train in trains && ObservationOk(g, turn.seen)
  }

  lemma {:induction false} OtherKeeps(g: Track, d: Driver, a: Locks, b: Locks, t: int)
    requires Shaped(g) && DriverOk(g, World(d, a)) && FairTo(t, a, b) && t != d.train
    ensures DriverOk(g, World(d, b))
  {
    hide TenuresOk;
  }

  lemma {:induction false} MoveKeeps(g: Track, f: Fleet, turn: Turn)
    requires Shaped(g) && FleetOk(g, f) && TurnOk(g, f.drivers.Keys, turn)
    ensures var w := World(f.drivers[turn.train], f.locks);
      && CanStep(g, w, turn.seen)
      && var w' := Step(g, w, turn.action, turn.seen);
      && FleetOk(g, Fleet(f.drivers[turn.train := w'.driver], w'.locks))
      && w'.locks.owner.Keys == f.locks.owner.Keys && f.locks.log <= w'.locks.log
  {
    var t := turn.train;
    var w := World(f.drivers[t], f.locks);
    assert DriverOk(g, w);
    var w' := Step(g, w, turn.action, turn.seen);
    StepKeeps(g, w, turn.action, turn.seen);
    hide Step, TenuresOk, DriverOk, StepOk;
    forall u | u in f.drivers && u != t
      ensures DriverOk(g, World(f.drivers[u], w'.locks))
    {
      OtherKeeps(g, f.drivers[u], f.locks, w'.locks, t);
    }
  }

  /** One train takes its turn. */
  ghost function Move(g: Track, f: Fleet, turn: Turn): (f': Fleet)
    requires Shaped(g) && FleetOk(g, f) && TurnOk(g, f.drivers.Keys, turn)
    ensures FleetOk(g, f') && f'.drivers.Keys == f.drivers.Keys
    ensures f'.locks.owner.Keys == f.locks.owner.Keys && f.locks.log <= f'.locks.log
  {
    MoveKeeps(g, f, turn);
    var w := Step(g, World(f.drivers[turn.train], f.locks), turn.action, turn.seen);
    Fleet(f.drivers[turn.train := w.driver], w.locks)
  }

  ghost function RunAll(g: Track, f: Fleet, turns: seq<Turn>): Fleet
    requires Shaped(g) && FleetOk(g, f) && forall k | 0 <= k < |turns| :: TurnOk(g, f.drivers.Keys, turns[k])
    decreases |turns|
  {
    if turns == [] then f else RunAll(g, Move(g, f, turns[0]), turns[1..])
  }

  /** A lock names a train exactly if that train's driver remembers setting the switch;
      drivers between segments hold none; every tenure of every lock, past or present, saw
      exactly one command. */
  ghost predicate LocksInOrder(f: Fleet) {
    && (forall t, num | t in f.drivers && num in f.locks.owner ::
          f.locks.owner[num] == t <==> Demand(num, NONE) in f.drivers[t].demands)
    && (forall t, num | t in f.drivers && num in f.locks.owner && Quiet(f.drivers[t].mode) :: f.locks.owner[num] != t)
    && (forall num | num in f.locks.owner :: TenureOk(f.locks, num))
  }

  /** Two modes may do without a path, and thinking does; with one, the indices are inside it,
      and the inner one is 0 or at a sensor. */
  ghost predicate OnPath(g: Track, d: Driver) {
    && (!d.mode.Thinking? && !d.mode.InterruptedWaitingToReverse? ==> d.path.Some?)
    && (d.mode.Thinking? ==> d.path.None?)
    && (d.path.Some? ==>
          && IsPathIndex(d)
          && (d.j == 0 || (CurrentNodes(d)[d.j] < |g| && g[CurrentNodes(d)[d.j]].kind.Sensor?)))
  }

  ghost predicate IsPathIndex(d: Driver)
    requires d.path.Some?
  {
    d.i < |d.path.value| && d.j < |CurrentNodes(d)|
  }

  ghost predicate InOrder(g: Track, f: Fleet) {
    LocksInOrder(f) && forall t | t in f.drivers :: OnPath(g, f.drivers[t])
  }

  lemma {:induction false} OkIsInOrder(g: Track, f: Fleet)
    requires Shaped(g) && FleetOk(g, f)
    ensures InOrder(g, f)
  {
    forall t | t in f.drivers
      ensures DriverOk(g, World(f.drivers[t], f.locks)) && OnPath(g, f.drivers[t])
    {
    }
  }

  /** However the trains' steps interleave, locks and drivers stay in order, for the same
      trains and switches, and what happened to the locks is only added to. */
  lemma {:induction false} LocksNeverLeak(g: Track, f: Fleet, turns: seq<Turn>)
    requires Shaped(g) && FleetOk(g, f) && forall k | 0 <= k < |turns| :: TurnOk(g, f.drivers.Keys, turns[k])
    ensures var f' := RunAll(g, f, turns);
      && FleetOk(g, f') && InOrder(g, f') && f.locks.log <= f'.locks.log
      && f'.drivers.Keys == f.drivers.Keys && f'.locks.owner.Keys == f.locks.owner.Keys
    decreases |turns|
  {
    if turns == [] {
      OkIsInOrder(g, f);
    } else {
      hide FleetOk, InOrder;
      LocksNeverLeak(g, Move(g, f, turns[0]), turns[1..]);
    }
  }

  lemma {:induction false} RunSnoc(g: Track, f: Fleet, turns: seq<Turn>, turn: Turn)
    requires Shaped(g) && FleetOk(g, f) && TurnOk(g, f.drivers.Keys, turn)
    requires forall k | 0 <= k < |turns| :: TurnOk(g, f.drivers.Keys, turns[k])
    ensures var f' := RunAll(g, f, turns);
      FleetOk(g, f') && f'.drivers.Keys == f.drivers.Keys && RunAll(g, f, turns + [turn]) == Move(g, f', turn)
    decreases |turns|
  {
    hide FleetOk, TurnOk;
    if turns == [] {
      assert turns + [turn] == [turn];
      assert RunAll(g, Move(g, f, turn), [turn][1..]) == Move(g, f, turn);
    } else {
      assert (turns + [turn])[1..] == turns[1..] + [turn];
      RunSnoc(g, Move(g, f, turns[0]), turns[1..], turn);
    }
  }

  /** At every turn of every run, the index of the train that moves goes on as it should, and
      those of the others stay. */
  lemma {:induction false} IndicesOnlyGrow(g: Track, f: Fleet, turns: seq<Turn>, turn: Turn, t: int)
    requires Shaped(g) && FleetOk(g, f) && TurnOk(g, f.drivers.Keys, turn)
    requires forall k | 0 <= k < |turns| :: TurnOk(g, f.drivers.Keys, turns[k])
    ensures var before, after := RunAll(g, f, turns), RunAll(g, f, turns + [turn]);
      t in f.drivers ==>
        && t in before.drivers && t in after.drivers
        && (t != turn.train ==> after.drivers[t] == before.drivers[t])
        && (before.drivers[t].path.Some? ==> IndexMoves(before.drivers[t], after.drivers[t]))
  {
    RunSnoc(g, f, turns, turn);
    var before := RunAll(g, f, turns);
    MoveKeeps(g, before, turn);
    if t in f.drivers && t == turn.train {
      StepMovesIndex(g, before, turn);
    }
    hide FleetOk, RunAll, Step, DriverOk, CanStep, IndexMoves;
  }

  lemma {:induction false} StepMovesIndex(g: Track, f: Fleet, turn: Turn)
    requires Shaped(g) && FleetOk(g, f) && TurnOk(g, f.drivers.Keys, turn)
    ensures var w := World(f.drivers[turn.train], f.locks);
      && CanStep(g, w, turn.seen)
      && (w.driver.path.Some? ==> IndexMoves(w.driver, Step(g, w, turn.action, turn.seen).driver))
  {
    var w := World(f.drivers[turn.train], f.locks);
    assert DriverOk(g, w);
    hide FleetOk, Step, DriverOk, IndexMoves;
    MoveKeeps(g, f, turn);
    StepKeeps(g, w, turn.action, turn.seen);
  }

  /** At the start no lock is held and every driver is thinking. */
  lemma {:induction false} FleetStarts(g: Track, trains: set<int>, nums: set<int>)
    requires Shaped(g) && 0 !in trains && Equipped(g, nums)
    ensures FleetOk(g, Fleet(map t | t in trains :: Driver(t, Thinking, None, 0, 0, [], None, 0, 0),
                             Locks(map num | num in nums :: 0, [])))
  {
  }
}
