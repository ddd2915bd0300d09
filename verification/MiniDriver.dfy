/** The driver object and the lock table it shares with the other drivers, changed in place
    and proved to do what the steps say. Speed commands and notices are not modelled. */
module MiniDriver {
  import opened TrackGraph
  import opened Wrappers
  import opened FindPath
  import opened DriverSteps

  /** `internal_switch_state`, and what has been sent to the switches. */
  class SwitchBoard {
    var locks: map<int, int>
    ghost var log: seq<Event>

    ghost function View(): Locks
      reads this
    {
      Locks(locks, log)
    }

    constructor (nums: set<int>)
      ensures View() == Locks(map num | num in nums :: 0, [])
    {
      locks := map num | num in nums :: 0;
      log := [];
    }

    method LockAndSet(num: int, train: int, dir: SwitchDir)
      modifies this
      ensures View() == Locks(old(locks)[num := train], old(log) + [Acquire(num, train), Command(num, train, dir)])
    {
      locks := locks[num := train];
      log := log + [Acquire(num, train), Command(num, train, dir)];
    }

    method Unlock(num: int, train: int)
      modifies this
      ensures View() == Released(old(View()), num, train)
    {
      locks := locks[num := 0];
      log := log + [Release(num, train)];
    }
  }

  class MiniDriver {
    const g: Track
    const train: int
    const switches: SwitchBoard
    var path: Option<seq<Segment>>
    var i: nat
    var j: nat
    var switchDemands: seq<Demand>
    var dest: Option<Destination>
    var brakingDist: int
    var reverseTimer: int
    var state: Mode

    ghost function View(): World
      reads this, switches
    {
      World(Driver(train, state, path, i, j, switchDemands, dest, brakingDist, reverseTimer), switches.View())
    }

    ghost predicate Valid(o: Observation)
      reads this, switches
    {
      CanStep(g, View(), o)
    }

    constructor (g: Track, train: int, switches: SwitchBoard)
      ensures this.g == g && this.train == train && this.switches == switches
      ensures View() == World(Driver(train, Thinking, None, 0, 0, [], None, 0, 0), switches.View())
    {
      this.g, this.train, this.switches := g, train, switches;
      path, i, j, switchDemands, dest := None, 0, 0, [], None;
      brakingDist, reverseTimer, state := 0, 0, Thinking;
    }

    /** The loop of `get_switch_demands`. */
    method CollectDemands(segment: seq<nat>, from: nat, status: map<int, SwitchDir>, fast: bool)
      returns (found: seq<Demand>)
      requires Shaped(g) && InTrack(g, segment) && Equipped(g, status.Keys)
      ensures found == DemandsFrom(g, segment, from, status, fast)
    {
      hide Wanted, GetSwitchDir, HasEdge, DemandsFrom;
      found := [];
      var first := fast;
      var x := from;
      ghost var goal := DemandsFrom(g, segment, from, status, fast);
      while x + 1 < |segment|
        invariant goal == found + DemandsFrom(g, segment, x, status, first)
        decreases |segment| - x
      {
        DemandsRound(g, segment, x, status, first, found);
        var node := g[segment[x]];
        if node.kind.Branch? {
          var dir := GetSwitchDir(g, segment[x], segment[x + 1]);
          if status[node.num] != dir {
            found := found + [Demand(node.num, dir)];
          }
        } else if node.kind.Merge? {
        } else if !first {
          first := true;
        } else {
          break;
        }
        x := x + 1;
      }
      if x + 1 >= |segment| {
        NoDemands(g, segment, x, status, first);
      }
    }

    method GetSwitchDemands(o: Observation)
      requires Valid(o) && path.Some?
      modifies this`switchDemands
      ensures View() == WithDriver(old(View()), Demanding(g, old(View().driver), o))
      ensures Lockable(switchDemands, switches.locks)
    {
      var found := CollectDemands(path.value[i].nodes, j + 1, o.status, o.fast);
      switchDemands := switchDemands + found;
    }

    method TrySwitchOnDemand()
      requires Lockable(switchDemands, switches.locks)
      modifies this`switchDemands, switches
      ensures View() == SwitchFrom(old(View()), 0)
    {
      var k := 0;
      ghost var goal := SwitchFrom(View(), 0);
      while k < |switchDemands|
        invariant 0 <= k <= |switchDemands| && Lockable(switchDemands, switches.locks)
        invariant SwitchFrom(View(), k) == goal
        invariant |switchDemands| == |old(switchDemands)|
      {
        var Demand(num, dir) := switchDemands[k];
        if dir == NONE || switches.locks[num] != 0 {
          k := k + 1;
          continue;
        }
        ghost var before := View();
        switches.LockAndSet(num, train, dir);
        switchDemands := switchDemands[k := Demand(num, NONE)];
        assert View() == Taken(before, k);
        k := k + 1;
      }
    }

    method UnlockMySwitches()
      requires Lockable(switchDemands, switches.locks)
      modifies this`switchDemands, switches
      ensures View() == Unlocked(old(View()))
    {
      var k := 0;
      ghost var d := View().driver;
      ghost var goal := UnlockFrom(d, switches.View(), 0);
      while k < |switchDemands|
        invariant 0 <= k <= |switchDemands| && View().driver == d && Lockable(switchDemands, switches.locks)
        invariant UnlockFrom(d, switches.View(), k) == goal
      {
        var num := switchDemands[k].num;
        if switches.locks[num] == train {
          switches.Unlock(num, train);
        }
        k := k + 1;
      }
      switchDemands := [];
    }

    method Reset()
      requires Lockable(switchDemands, switches.locks)
      modifies this, switches
      ensures View() == DriverSteps.Reset(old(View()))
    {
      path, i, j, dest, brakingDist, state := None, 0, 0, None, 0, Thinking;
      UnlockMySwitches();
    }

    method FindNextSensor(segment: seq<nat>, from: nat) returns (k: nat)
      requires InTrack(g, segment) && from <= |segment|
      ensures k == NextSensorIndex(g, segment, from)
    {
      k := from;
      while k < |segment| && !g[segment[k]].kind.Sensor?
        invariant from <= k <= |segment|
        invariant NextSensorIndex(g, segment, from) == NextSensorIndex(g, segment, k)
      {
        k := k + 1;
      }
    }

    method TryAdvancePathSensor(o: Observation)
      requires Valid(o) && path.Some?
      modifies this, switches
      ensures View() == Advance(g, old(View()), o)
    {
      hide Wanted, UnlockFrom, SwitchFrom, DemandsFrom, NextSensorIndex;
      var segment := path.value[i].nodes;
      if segment[j] != o.pos {
        if o.pos !in segment {
          Reset();
          return;
        }
        var next := FindNextSensor(segment, j + 1);
        if next != |segment| {
          j := next;
          UnlockMySwitches();
          GetSwitchDemands(o);
          TrySwitchOnDemand();
        }
      }
    }

    method GetPath(to: Option<Destination>, found: Option<seq<Segment>>)
      modifies this
      ensures View() == WithDriver(old(View()), GotPath(old(View().driver), to, found))
    {
      path := found;
      if path.None? {
        return;
      }
      i, j := 0, 0;
      state := AccelToStartSegment;
      dest := to;
    }

    /** `perform` */
    method PerformAction(o: Observation)
      requires Valid(o)
      modifies this, switches
      ensures View() == Perform(g, old(View()), o)
    {
      ghost var start := View();
      hide Wanted, UnlockFrom, SwitchFrom, DemandsFrom, Advance;
      match state {
        case AccelToStartSegment =>
          brakingDist := o.brakingFor;
          GetSwitchDemands(o);
          TrySwitchOnDemand();
          state := RunningSegment;
        case RunningSegment =>
          SwitchFromKeeps(start, 0);
          TrySwitchOnDemand();
          if path.value[i].dist <= brakingDist {
            state := Breaking;
          }
          TryAdvancePathSensor(o);
        case Breaking =>
          if !o.stopped {
            TryAdvancePathSensor(o);
          } else {
            FinishSegment(o);
          }
        case EndSegment =>
          EndOfSegment();
        case WaitingToReverse =>
          reverseTimer := reverseTimer + 1;
          if reverseTimer >= REVERSE_WAIT {
            state := AccelToStartSegment;
          }
        case FixRunningUp =>
          if o.sitting {
            state := EndSegment;
          }
        case FixWaitingToReverse1 =>
          reverseTimer := reverseTimer + 1;
          if reverseTimer >= REVERSE_WAIT {
            state := FixRunningBack;
          }
        case FixRunningBack =>
          if o.sitting {
            reverseTimer := 0;
            state := FixWaitingToReverse2;
          }
        case FixWaitingToReverse2 =>
          reverseTimer := reverseTimer + 1;
          if reverseTimer >= REVERSE_WAIT {
            state := EndSegment;
          }
        case InterruptedWaitingToReverse =>
          reverseTimer := reverseTimer + 1;
          if reverseTimer >= REVERSE_WAIT {
            GetPath(dest, o.rerouted);
          }
        case _ =>
      }
    }

    method FinishSegment(o: Observation)
      requires Valid(o) && path.Some?
      modifies this
      ensures View() == WithDriver(old(View()), Stopped(g, old(View().driver), o))
    {
      var segment := path.value[i].nodes;
      var asked := ((dest.Some? ==> dest.value.offset == 0) || i < |path.value| - 1) && |segment| != 1;
      var target := segment[|segment| - 1];
      if asked && g[target].kind.Sensor? {
        if o.pos == target {
          if o.sitting {
            state := EndSegment;
          } else {
            reverseTimer := 0;
            state := FixWaitingToReverse1;
          }
        } else {
          state := FixRunningUp;
        }
      } else {
        state := EndSegment;
      }
    }

    method EndOfSegment()
      requires Lockable(switchDemands, switches.locks) && path.Some?
      modifies this, switches
      ensures View() == Ended(old(View()))
    {
      hide UnlockFrom;
      UnlockMySwitches();
      if i == |path.value| - 1 {
        path := None;
        dest := None;
        state := Thinking;
      } else {
        state := WaitingToReverse;
        i := i + 1;
        j := 0;
        reverseTimer := 0;
      }
    }

    /** `interrupt_path`: whether the train was moving. */
    method InterruptPath(level: int, o: Observation) returns (changed: bool)
      modifies this
      ensures View() == WithDriver(old(View()), Interrupted(old(View().driver), level, o))
      ensures changed <==> !o.stopped
    {
      if o.stopped {
        return false;
      }
      if level == 0 {
        if state == RunningSegment {
          state := InterruptedBreaking;
        }
      } else if state == RunningSegment {
        brakingDist := o.brakingFor;
      }
      return true;
    }

    /** `interrupt_path_clear`: whether there was a segment to go on with. */
    method InterruptPathClear(o: Observation) returns (changed: bool)
      modifies this
      ensures View() == WithDriver(old(View()), Cleared(old(View().driver), o))
      ensures changed <==> old(path).Some? && (old(state) == RunningSegment || old(state) == InterruptedBreaking)
    {
      if path.None? || (state != RunningSegment && state != InterruptedBreaking) {
        return false;
      }
      if o.brakingFor != brakingDist {
        brakingDist := o.brakingFor;
      }
      state := RunningSegment;
      return true;
    }

    /** `get_reversed_path`: whether the train was stuck in its path. */
    method GetReversedPath(o: Observation) returns (changed: bool)
      requires Lockable(switchDemands, switches.locks)
      modifies this, switches
      ensures View() == TurnedBack(old(View()), o)
      ensures changed <==> old(state) == InterruptedBreaking && o.stopped
    {
      if !(state == InterruptedBreaking && o.stopped) || state == InterruptedWaitingToReverse {
        return false;
      }
      UnlockMySwitches();
      reverseTimer := 0;
      state := InterruptedWaitingToReverse;
      return true;
    }
  }
}
