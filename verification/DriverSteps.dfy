/** The driver of one train (`traffic_mini_driver.*`): what each of its steps does to the
    driver and to the switch locks that all drivers share. What the driver learns about its
    train (position, speed, distances worked out in fixed point) comes in as observations. */
module DriverSteps {
  import opened TrackGraph
  import opened Wrappers
  import opened FindPath

  const PREDICT_REACT_INTERVAL: int := 15
  const REVERSE_WAIT: int := 100 / PREDICT_REACT_INTERVAL

  datatype Mode =
    | Thinking
    | AccelToStartSegment | RunningSegment | Breaking | EndSegment | WaitingToReverse
    | FixRunningUp | FixWaitingToReverse1 | FixRunningBack | FixWaitingToReverse2
    | InterruptedBreaking | InterruptedWaitingToReverse

  /** A switch the driver wants set; `NONE` once it has locked and set it. */
  datatype Demand = Demand(num: int, dir: SwitchDir)

  datatype Destination = Destination(node: nat, offset: int)

  datatype Driver = Driver(
    train: int, mode: Mode, path: Option<seq<Segment>>, i: nat, j: nat,
    demands: seq<Demand>, dest: Option<Destination>, brakingDist: int, reverseTimer: int)

  /** What happened to the locks, in order; kept to state what the drivers promise. */
  datatype Event = Acquire(num: int, train: int) | Command(num: int, train: int, dir: SwitchDir)
    | Release(num: int, train: int)

  /** The locks: for each switch the train that holds it, or 0. */
  datatype Locks = Locks(owner: map<int, int>, log: seq<Event>)

  datatype World = World(driver: Driver, locks: Locks)

  /** What is known about the train at a step. `fast`: over 50; `brakingFor`: the braking
      distance for the speed level picked at this step. */
  datatype Observation = Observation(
    pos: nat, stopped: bool, fast: bool, sitting: bool, brakingFor: int,
    status: map<int, SwitchDir>, rerouted: Option<seq<Segment>>)

  /** Every switch of the track has a status and a lock. */
  ghost predicate Equipped(g: Track, nums: set<int>) {
    forall n | 0 <= n < |g| && g[n].kind.Branch? :: g[n].num in nums
  }

  ghost predicate Lockable(demands: seq<Demand>, owner: map<int, int>) {
    forall k | 0 <= k < |demands| :: demands[k].num in owner
  }

  /** Every switch has a status, and what the planner found is a plan. */
  ghost predicate ObservationOk(g: Track, o: Observation)
    requires Shaped(g)
  {
    Equipped(g, o.status.Keys) && (o.rerouted.Some? ==> IsPlan(g, o.rerouted.value))
  }

  ghost predicate CanStep(g: Track, w: World, o: Observation) {
    && Shaped(g) && ObservationOk(g, o) && Equipped(g, w.locks.owner.Keys)
    && Lockable(w.driver.demands, w.locks.owner)
    && IndexOk(g, w.driver)
  }

  /** The driver's indices can be used whenever there is a path; there is one in every mode
      but two, and none while thinking. */
  ghost predicate IndexOk(g: Track, d: Driver)
    requires Shaped(g)
  {
    && (d.path.Some? ==>
          IsPlan(g, d.path.value) && d.i < |d.path.value| && d.j < |d.path.value[d.i].nodes|
          && (d.j == 0 || g[d.path.value[d.i].nodes[d.j]].kind.Sensor?))
    && (d.path.None? ==> d.mode.Thinking? || d.mode.InterruptedWaitingToReverse?)
    && (d.mode.Thinking? ==> d.path.None?)
  }

  function CurrentNodes(d: Driver): seq<nat>
    requires d.path.Some? && d.i < |d.path.value|
  {
    d.path.value[d.i].nodes
  }

  // ----- Demands and locks -----

  /** The segment passes a branch at `x` or later, which the path needs set as demanded. */
  ghost predicate Wanted(g: Track, seg: seq<nat>, lo: nat, e: Demand)
    requires Shaped(g) && InTrack(g, seg)
  {
    exists x | lo <= x < |seg| - 1 :: WantedAt(g, seg, x, e)
  }

  predicate WantedAt(g: Track, seg: seq<nat>, x: nat, e: Demand)
    requires Shaped(g) && InTrack(g, seg) && x < |seg| - 1
  {
    g[seg[x]].kind.Branch? && g[seg[x]].num == e.num && e.dir == GetSwitchDir(g, seg[x], seg[x + 1])
  }

  /** `get_switch_demands`, from the `x`-th node of the segment on. */
  function DemandsFrom(g: Track, seg: seq<nat>, x: nat, status: map<int, SwitchDir>, first: bool): (r: seq<Demand>)
    requires Shaped(g) && InTrack(g, seg) && Equipped(g, status.Keys)
    ensures forall k | 0 <= k < |r| :: Wanted(g, seg, x, r[k])
    decreases |seg| - x
  {
    if x + 1 >= |seg| then []
    else
      var node := g[seg[x]];
      if node.kind.Branch? then
        var dir := GetSwitchDir(g, seg[x], seg[x + 1]);
        assert WantedAt(g, seg, x, Demand(node.num, dir));
        (if status[node.num] != dir then [Demand(node.num, dir)] else []) + DemandsFrom(g, seg, x + 1, status, first)
      else if node.kind.Merge? then DemandsFrom(g, seg, x + 1, status, first)
      else if !first then DemandsFrom(g, seg, x + 1, status, true)
      else []
  }

  /** How many of `seg[x..k]` are neither branch nor merge, that is, sensors or dead ends. */
  ghost function Stops(g: Track, seg: seq<nat>, x: nat, k: nat): nat
    requires InTrack(g, seg) && k <= |seg|
    decreases k - x
  {
    if x >= k then 0
    else (if g[seg[x]].kind.Branch? || g[seg[x]].kind.Merge? then 0 else 1) + Stops(g, seg, x + 1, k)
  }

  /** `seg[k]` is a branch set otherwise than `e` says the path needs, with no sensor before
      it that ends the search. */
  ghost predicate MisSetAt(g: Track, seg: seq<nat>, x: nat, status: map<int, SwitchDir>, first: bool, k: nat, e: Demand)
    requires Shaped(g) && InTrack(g, seg) && Equipped(g, status.Keys)
  {
    x <= k < |seg| - 1 && WantedAt(g, seg, k, e) && status[e.num] != e.dir
      && Stops(g, seg, x, k) <= (if first then 0 else 1)
  }

  /** What is demanded: exactly the branches of the segment that are not set its way, up to
      the second sensor, or the first if the train is fast. */
  lemma {:induction false} DemandsExactly(g: Track, seg: seq<nat>, x: nat, status: map<int, SwitchDir>, first: bool,
                                          e: Demand)
    requires Shaped(g) && InTrack(g, seg) && Equipped(g, status.Keys)
    ensures e in DemandsFrom(g, seg, x, status, first) <==> exists k :: MisSetAt(g, seg, x, status, first, k, e)
    decreases |seg| - x
  {
    if x + 1 >= |seg| {
    } else {
      var passing := g[seg[x]].kind.Branch? || g[seg[x]].kind.Merge?;
      var first', y := first || !passing, x + 1;
      DemandsExactly(g, seg, y, status, first', e);
      if k: nat :| MisSetAt(g, seg, x, status, first, k, e) && k > x {
        assert MisSetAt(g, seg, y, status, first', k, e);
      }
      if k: nat :| MisSetAt(g, seg, y, status, first', k, e) && (passing || !first) {
        assert MisSetAt(g, seg, x, status, first, k, e);
      }
      if MisSetAt(g, seg, x, status, first, x, e) {
        assert DemandsFrom(g, seg, x, status, first)[0] == e;
      }
      assert g[seg[x]].kind.Branch? && status[g[seg[x]].num] != GetSwitchDir(g, seg[x], seg[x + 1]) ==>
          MisSetAt(g, seg, x, status, first, x, DemandsFrom(g, seg, x, status, first)[0]);
    }
  }

  lemma {:induction false} NoDemands(g: Track, seg: seq<nat>, x: nat, status: map<int, SwitchDir>, first: bool)
    requires Shaped(g) && InTrack(g, seg) && Equipped(g, status.Keys) && x + 1 >= |seg|
    ensures DemandsFrom(g, seg, x, status, first) == []
  {
  }

  /** One round of the loop of `get_switch_demands`. */
  lemma {:induction false} DemandsRound(g: Track, seg: seq<nat>, x: nat, status: map<int, SwitchDir>, first: bool,
                                        found: seq<Demand>)
    requires Shaped(g) && InTrack(g, seg) && Equipped(g, status.Keys) && x + 1 < |seg|
    ensures var node, rest := g[seg[x]], found + DemandsFrom(g, seg, x, status, first);
      if node.kind.Branch? then
        var dir := GetSwitchDir(g, seg[x], seg[x + 1]);
        node.num in status &&
        rest == (if status[node.num] != dir then found + [Demand(node.num, dir)] else found)
          + DemandsFrom(g, seg, x + 1, status, first)
      else if node.kind.Merge? || !first then rest == found + DemandsFrom(g, seg, x + 1, status,
        first || !node.kind.Merge?)
      else rest == found
  {
  }

  function Demanding(g: Track, d: Driver, o: Observation): Driver
    requires Shaped(g) && d.path.Some? && d.i < |d.path.value| && InTrack(g, CurrentNodes(d))
      && Equipped(g, o.status.Keys)
  {
    d.(demands := d.demands + DemandsFrom(g, CurrentNodes(d), d.j + 1, o.status, o.fast))
  }

  /** `try_switch_on_demand`, from the `k`-th demand on. */
  function SwitchFrom(w: World, k: nat): World
    requires Lockable(w.driver.demands, w.locks.owner)
    decreases |w.driver.demands| - k
  {
    if k >= |w.driver.demands| then w
    else
      var Demand(num, dir) := w.driver.demands[k];
      if dir == NONE || w.locks.owner[num] != 0 then SwitchFrom(w, k + 1)
      else SwitchFrom(Taken(w, k), k + 1)
  }

  /** The driver locks a free switch, sends it one command, and has nothing left to ask of it. */
  function Taken(w: World, k: nat): World
    requires k < |w.driver.demands|
  {
    var Demand(num, dir) := w.driver.demands[k];
    var t := w.driver.train;
    World(w.driver.(demands := w.driver.demands[k := Demand(num, NONE)]),
          Locks(w.locks.owner[num := t], w.locks.log + [Acquire(num, t), Command(num, t, dir)]))
  }

  /** `unlock_my_switches`, from the `k`-th demand on; `clear` comes after. */
  function UnlockFrom(d: Driver, locks: Locks, k: nat): (r: Locks)
    requires Lockable(d.demands, locks.owner)
    ensures r.owner.Keys == locks.owner.Keys
    decreases |d.demands| - k
  {
    if k >= |d.demands| then locks
    else
      var num := d.demands[k].num;
      UnlockFrom(d, if locks.owner[num] == d.train then Released(locks, num, d.train) else locks, k + 1)
  }

  function Released(locks: Locks, num: int, train: int): Locks {
    Locks(locks.owner[num := 0], locks.log + [Release(num, train)])
  }

  function Unlocked(w: World): World
    requires Lockable(w.driver.demands, w.locks.owner)
  {
    World(w.driver.(demands := []), UnlockFrom(w.driver, w.locks, 0))
  }

  /** `reset` (and, but for the speed command, `emergency_stop`). */
  function Reset(w: World): World
    requires Lockable(w.driver.demands, w.locks.owner)
  {
    var d := w.driver.(path := None, i := 0, j := 0, dest := None, brakingDist := 0, mode := Thinking);
    Unlocked(World(d, w.locks))
  }

  // ----- Steps -----

  /** `try_advance_path_sensor` */
  function Advance(g: Track, w: World, o: Observation): World
    requires CanStep(g, w, o) && w.driver.path.Some?
  {
    var d := w.driver;
    var seg := CurrentNodes(d);
    if seg[d.j] == o.pos then w
    else if o.pos !in seg then Reset(w)
    else
      var next := NextSensorIndex(g, seg, d.j + 1);
      if next == |seg| then w
      else
        var unlocked := Unlocked(World(d.(j := next), w.locks));
        SwitchFrom(World(Demanding(g, unlocked.driver, o), unlocked.locks), 0)
  }

  predicate AskedToStopAtSensor(d: Driver)
    requires d.path.Some? && d.i < |d.path.value|
  {
    ((d.dest.Some? ==> d.dest.value.offset == 0) || d.i < |d.path.value| - 1) && |CurrentNodes(d)| != 1
  }

  function DistLeft(d: Driver): int
    requires d.path.Some? && d.i < |d.path.value|
  {
    d.path.value[d.i].dist
  }

  /** `get_path`, with what the planner found. */
  function GotPath(d: Driver, dest: Option<Destination>, found: Option<seq<Segment>>): Driver {
    if found.None? then d.(path := None)
    else d.(path := found, i := 0, j := 0, mode := AccelToStartSegment, dest := dest)
  }

  function Waited(d: Driver, mode: Mode): Driver {
    var timer := d.reverseTimer + 1;
    d.(reverseTimer := timer, mode := if timer >= REVERSE_WAIT then mode else d.mode)
  }

  /** What a driver that has stopped at the end of a segment does about where it stands. */
  function Stopped(g: Track, d: Driver, o: Observation): Driver
    requires Shaped(g) && IndexOk(g, d) && d.path.Some?
  {
    if !AskedToStopAtSensor(d) then d.(mode := EndSegment)
    else
      var target := Last(CurrentNodes(d));
      if !g[target].kind.Sensor? then d.(mode := EndSegment)
      else if o.pos == target then
        if o.sitting then d.(mode := EndSegment) else d.(mode := FixWaitingToReverse1, reverseTimer := 0)
      else d.(mode := FixRunningUp)
  }

  function Ended(w: World): World
    requires Lockable(w.driver.demands, w.locks.owner) && w.driver.path.Some?
  {
    var u := Unlocked(w);
    if u.driver.i + 1 == |u.driver.path.value| then
      u.(driver := u.driver.(path := None, dest := None, mode := Thinking))
    else u.(driver := u.driver.(mode := WaitingToReverse, i := u.driver.i + 1, j := 0, reverseTimer := 0))
  }

  function WithDriver(w: World, d: Driver): World {
    w.(driver := d)
  }

  function Ran(g: Track, w: World, o: Observation): World
    requires CanStep(g, w, o) && w.driver.path.Some?
  {
    SwitchFromKeeps(w, 0);
    var s := SwitchFrom(w, 0);
    Advance(g, if DistLeft(s.driver) <= s.driver.brakingDist then WithDriver(s, s.driver.(mode := Breaking)) else s, o)
  }

  function Started(g: Track, w: World, o: Observation): World
    requires CanStep(g, w, o) && w.driver.path.Some?
  {
    var d := Demanding(g, w.driver.(brakingDist := o.brakingFor), o);
    var s := SwitchFrom(World(d, w.locks), 0);
    WithDriver(s, s.driver.(mode := RunningSegment))
  }

  lemma {:induction false} SwitchFromKeeps(w: World, k: nat)
    requires Lockable(w.driver.demands, w.locks.owner)
    ensures var w' := SwitchFrom(w, k);
      && w'.driver == w.driver.(demands := w'.driver.demands)
      && |w'.driver.demands| == |w.driver.demands|
      && (forall m | 0 <= m < |w.driver.demands| :: w'.driver.demands[m].num == w.driver.demands[m].num)
      && w'.locks.owner.Keys == w.locks.owner.Keys
    decreases |w.driver.demands| - k
  {
    if k >= |w.driver.demands| {
    } else {
      var Demand(num, dir) := w.driver.demands[k];
      if dir == NONE || w.locks.owner[num] != 0 {
        SwitchFromKeeps(w, k + 1);
      } else {
        SwitchFromKeeps(Taken(w, k), k + 1);
      }
    }
  }

  /** `perform`: one action, and the next mode. */
  function Perform(g: Track, w: World, o: Observation): World
    requires CanStep(g, w, o)
  {
    var d := w.driver;
    match d.mode
    case AccelToStartSegment => Started(g, w, o)
    case RunningSegment => Ran(g, w, o)
    case Breaking => if !o.stopped then Advance(g, w, o) else WithDriver(w, Stopped(g, d, o))
    case EndSegment => Ended(w)
    case WaitingToReverse => WithDriver(w, Waited(d, AccelToStartSegment))
    case FixRunningUp => if o.sitting then WithDriver(w, d.(mode := EndSegment)) else w
    case FixWaitingToReverse1 => WithDriver(w, Waited(d, FixRunningBack))
    case FixRunningBack => if o.sitting then WithDriver(w, d.(mode := FixWaitingToReverse2, reverseTimer := 0)) else w
    case FixWaitingToReverse2 => WithDriver(w, Waited(d, EndSegment))
    case InterruptedWaitingToReverse =>
      var timer := d.reverseTimer + 1;
      var waited := d.(reverseTimer := timer);
      WithDriver(w, if timer >= REVERSE_WAIT then GotPath(waited, d.dest, o.rerouted) else waited)
    case InterruptedBreaking => w
    case Thinking => w
  }

  /** `interrupt_path` */
  function Interrupted(d: Driver, level: int, o: Observation): Driver {
    if o.stopped || !d.mode.RunningSegment? then d
    else if level == 0 then d.(mode := InterruptedBreaking)
    else d.(brakingDist := o.brakingFor)
  }

  /** `interrupt_path_clear` */
  function Cleared(d: Driver, o: Observation): Driver {
    if d.path.None? || !(d.mode.RunningSegment? || d.mode.InterruptedBreaking?) then d
    else d.(brakingDist := o.brakingFor, mode := RunningSegment)
  }

  /** `get_reversed_path` */
  function TurnedBack(w: World, o: Observation): World
    requires Lockable(w.driver.demands, w.locks.owner)
  {
    if !(w.driver.mode.InterruptedBreaking? && o.stopped) then w
    else
      var u := Unlocked(w);
      WithDriver(u, u.driver.(reverseTimer := 0, mode := InterruptedWaitingToReverse))
  }

  /** A prediction or a sensor corrects the distance left. */
  function Corrected(d: Driver, delta: int): Driver
    requires d.path.Some? ==> d.i < |d.path.value|
  {
    if d.path.None? then d
    else
      var seg := d.path.value[d.i];
      d.(path := Some(d.path.value[d.i := Segment(seg.nodes, seg.dist + delta)]))
  }

  /** Everything that can happen to a driver. */
  datatype Action =
    | DoPerform | DoInterrupt(level: int) | DoClear | DoTurn | DoGoto(dest: Destination) | DoReset
      | DoCorrect(delta: int)

  function Step(g: Track, w: World, a: Action, o: Observation): World
    requires CanStep(g, w, o)
  {
    match a
    case DoPerform => Perform(g, w, o)
    case DoInterrupt(level) => WithDriver(w, Interrupted(w.driver, level, o))
    case DoClear => WithDriver(w, Cleared(w.driver, o))
    case DoTurn => TurnedBack(w, o)
    case DoGoto(dest) => if w.driver.path.Some? then w else WithDriver(w, GotPath(w.driver, Some(dest), o.rerouted))
    case DoReset => Reset(w)
    case DoCorrect(delta) => WithDriver(w, Corrected(w.driver, delta))
  }
}
