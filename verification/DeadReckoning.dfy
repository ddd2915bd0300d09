/** Where the traffic server believes a train is (`traffic.cpp`): predictions move it on,
    sensor reads put it right, and a reversal command re-bases it on the sensor ahead.
    Speeds are not part of this: how far a prediction moves the train is any number. */
module DeadReckoning {
  import FindPath
  import opened MachineInts
  import opened TrackGraph
  import opened Wrappers
  import opened Walks
  import opened Reversal

  const TRAIN_SENSOR_EXPIRE_TIMEOUT: int := 20
  const REVERSE_CMD: int := 15

  /** `distLeft` is what the train's driver has left on its segment, if it has a path. */
  datatype Train = Train(
    sensorPos: nat, tickPos: nat, offset: int, approaching: bool, sitting: bool, lastRead: int,
    cmd: int, initialized: bool, distLeft: Option<int>)

  // ----- Distances in 24.8 fixed point -----

  /** The multiplication is signed and 32 bits wide; it is taken to wrap around. */
  function ToFixed(n: int): int {
    AsI32(n * 256)
  }

  /** Towards zero, as the source's conversion rounds. */
  function ToInt(raw: int): int {
    if raw >= 0 then raw / 256 else -(-raw / 256)
  }

  /** The error a sensor read reveals, as it is added to the driver's distance. */
  function Delta(actual: int, expected: int): int {
    ToInt(AsI32(ToFixed(actual) - ToFixed(expected)))
  }

  lemma {:induction false} WrapNumber(x: int) returns (k: int)
    ensures AsI32(x) == x + k * 0x1_0000_0000 && -0x8000_0000 <= AsI32(x) < 0x8000_0000
  {
    k := -(x / 0x1_0000_0000) - (if AsU32(x) < 0x8000_0000 then 0 else 1);
  }

  lemma {:induction false} WholeNumber(raw: int, n: int)
    requires raw == n * 256
    ensures ToInt(raw) == n
  {
  }

  /** The error is exact as long as it fits 24 bits, however large the two distances are. */
  lemma {:induction false} DeltaExact(actual: int, expected: int)
    ensures Delta(actual, expected) == actual - expected <==> -0x80_0000 <= actual - expected < 0x80_0000
  {
    var i := WrapNumber(actual * 256);
    var j := WrapNumber(expected * 256);
    var raw := ToFixed(actual) - ToFixed(expected);
    var k := WrapNumber(raw);
    hide AsI32, ToInt;
    var n := actual - expected + (i - j + k) * 0x100_0000;
    WholeNumber(AsI32(raw), n);
  }

  // ----- What a sensor read means to a train -----

  lemma {:induction false} TrackIsShaped(g: Track)
    requires WellFormed(g)
    ensures Shaped(g)
  {
  }

  lemma {:induction false} WalkIsInTrack(g: Track, p: seq<nat>)
    requires Shaped(g) && IsWalk(g, p)
    ensures InTrack(g, p) && p != []
  {
  }

  datatype Reading = Same | CameBack | Expected(dist: int) | Misbranched | Unknown

  /** How a read of `sensor` is taken when the train was last seen at `base`. */
  function ReadingOf(g: Track, sw: Switches, base: nat, sensor: nat): Reading
    requires WellFormed(g) && Known(g, sw) && base < |g| && sensor < |g|
  {
    if sensor == base then Same
    else if g[base].reverse == sensor then CameBack
    else if Next(g, sw, base).Some? && Next(g, sw, base).value.sensor == sensor then
      Expected(Next(g, sw, base).value.dist)
    else
      var before := Next(g, sw, g[sensor].reverse);
      if before.Some? && before.value.sensor < |g| && g[before.value.sensor].reverse == base
      then Misbranched else Unknown
  }

  function Reset(t: Train, sensor: nat, tick: int): Train {
    t.(sensorPos := sensor, tickPos := sensor, offset := 0, approaching := false, sitting := true, lastRead := tick)
  }

  function Read(g: Track, sw: Switches, t: Train, sensor: nat, tick: int): Train
    requires WellFormed(g) && Known(g, sw) && t.sensorPos < |g| && sensor < |g|
  {
    match ReadingOf(g, sw, t.sensorPos, sensor)
    case Same => t.(sitting := true, lastRead := tick)
    case CameBack => if t.sitting then t.(lastRead := tick) else Reset(t, sensor, tick)
    case Expected(dist) =>
      var left := match t.distLeft case Some(d) => Some(d + Delta(t.offset, dist)) case None => None;
      Reset(t.(distLeft := left), sensor, tick)
    case Misbranched => Reset(t, sensor, tick)
    case Unknown => t
  }

  /** Ticks are 32 bits wide and their difference is unsigned. */
  predicate Sits(now: int, lastRead: int) {
    AsU32(now - lastRead) < TRAIN_SENSOR_EXPIRE_TIMEOUT
  }

  function Forwards(t: Train): int {
    if t.approaching then -1 else 1
  }

  function Predict(t: Train, now: int, moved: int): Train {
    t.(sitting := Sits(now, t.lastRead),
       offset := t.offset + (if t.approaching then -moved else moved),
       distLeft := match t.distLeft case Some(d) => Some(d - moved) case None => None)
  }

  /** On a sensor the train faces the other way; between sensors it leaves the one it was
      heading for; at the end of the track it comes back to where it was. */
  function TurnRound(g: Track, sw: Switches, t: Train): Train
    requires WellFormed(g) && Known(g, sw) && t.sensorPos < |g| && t.tickPos < |g|
  {
    if t.sitting then t.(sensorPos := g[t.sensorPos].reverse, tickPos := g[t.sensorPos].reverse, offset := -t.offset)
    else
      match Next(g, sw, t.tickPos)
      case Some(hit) =>
        NextProgress(g, sw, t.tickPos);
        var pos := g[hit.sensor].reverse;
        t.(sensorPos := pos, tickPos := pos, offset := hit.dist - t.offset)
      case None => t.(approaching := !t.approaching)
  }

  function SpeedCmd(g: Track, sw: Switches, t: Train, speed: int, now: int, moved: int): Train
    requires WellFormed(g) && Known(g, sw) && t.sensorPos < |g| && t.tickPos < |g|
  {
    if speed == t.cmd then t
    else if !t.initialized then t.(cmd := speed)
    else
      var predicted := Predict(t, now, moved);
      (if speed == REVERSE_CMD then TurnRound(g, sw, predicted) else predicted).(cmd := speed)
  }

  // ----- Runs -----

  /** What the server is told, by whichever train or operator: `SwitchSet` throws a switch. */
  datatype Event = Predicted(now: int, moved: int) | SensorRead(sensor: nat, tick: int)
    | SpeedSet(speed: int, now: int, moved: int) | SwitchSet(num: int, dir: SwitchDir)

  ghost predicate Placed(g: Track, t: Train) {
    t.sensorPos == t.tickPos < |g|
  }

  /** Sensors and switches are those of the track. */
  predicate Sensible(g: Track, nums: set<int>, e: Event) {
    (e.SensorRead? ==> e.sensor < |g|) && (e.SwitchSet? ==> e.num in nums)
  }

  /** What the event does to the train, with the switches as they are at that time. */
  function Step(g: Track, sw: Switches, t: Train, e: Event): Train
    requires WellFormed(g) && Known(g, sw) && t.sensorPos < |g| && t.tickPos < |g| && Sensible(g, sw.Keys, e)
  {
    match e
    case Predicted(now, moved) => Predict(t, now, moved)
    case SensorRead(sensor, tick) => Read(g, sw, t, sensor, tick)
    case SpeedSet(speed, now, moved) => SpeedCmd(g, sw, t, speed, now, moved)
    case SwitchSet(_, _) => t
  }

  /** The two snapshots of a train are always of the same place. */
  lemma {:induction false} StaysPlaced(g: Track, sw: Switches, t: Train, e: Event)
    requires WellFormed(g) && Known(g, sw) && Placed(g, t) && Sensible(g, sw.Keys, e)
    ensures Placed(g, Step(g, sw, t, e))
  {
    assert g[t.sensorPos].reverse < |g|;
    if Next(g, sw, t.tickPos).Some? {
      NextProgress(g, sw, t.tickPos);
      assert g[Next(g, sw, t.tickPos).value.sensor].reverse < |g|;
    }
    hide WellFormed, Known, Next, ReadingOf, Delta, Sits;
  }

  datatype World = World(train: Train, sw: Switches)

  ghost predicate Ready(g: Track, w: World) {
    Known(g, w.sw) && Placed(g, w.train)
  }

  ghost predicate Possible(g: Track, nums: set<int>, es: seq<Event>) {
    forall k | 0 <= k < |es| :: Sensible(g, nums, es[k])
  }

  ghost function After(g: Track, w: World, e: Event): (w': World)
    requires WellFormed(g) && Ready(g, w) && Sensible(g, w.sw.Keys, e)
    ensures Ready(g, w') && w'.sw.Keys == w.sw.Keys
  {
    StaysPlaced(g, w.sw, w.train, e);
    World(Step(g, w.sw, w.train, e), if e.SwitchSet? then w.sw[e.num := e.dir] else w.sw)
  }

  ghost function Run(g: Track, w: World, es: seq<Event>): (w': World)
    requires WellFormed(g) && Ready(g, w) && Possible(g, w.sw.Keys, es)
    ensures Ready(g, w') && w'.sw.Keys == w.sw.Keys
    decreases |es|
  {
    if es == [] then w else Run(g, After(g, w, es[0]), es[1..])
  }

  /** The event turns the train round. */
  predicate Turns(t: Train, e: Event) {
    e.SpeedSet? && e.speed == REVERSE_CMD && e.speed != t.cmd && t.initialized
  }

  // ----- Where an event puts the train -----

  /** A train sits on its sensor for as long as it was read less than 20 ticks ago. The tick
      wraps around: `lastRead` and `now` are the two readings, at most one round apart. */
  lemma {:induction false} SitsFor(since: int, ticks: int)
    requires 0 <= ticks < 0x1_0000_0000
    ensures Sits(AsU32(since + ticks), AsU32(since)) <==> ticks < 20
  {
    assert AsU32(since + ticks) - AsU32(since) - ticks ==
      0x1_0000_0000 * (since / 0x1_0000_0000 - (since + ticks) / 0x1_0000_0000);
  }

  /** A speed command predicts first, if it says something new of a train that is known; and
      unless it reverses the train, that is all it does. */
  lemma {:induction false} SpeedSetPredicts(g: Track, w: World, speed: int, now: int, moved: int)
    requires WellFormed(g) && Ready(g, w) && !Turns(w.train, SpeedSet(speed, now, moved))
    ensures var t, w' := w.train, After(g, w, SpeedSet(speed, now, moved));
      && w'.sw == w.sw
      && (speed == t.cmd ==> w' == w)
      && (speed != t.cmd && !t.initialized ==> w'.train == t.(cmd := speed))
      && (speed != t.cmd && t.initialized ==>
            w'.train == After(g, w, Predicted(now, moved)).train.(cmd := speed))
  {
    hide WellFormed, Known, Next, Sits;
  }

  /** A prediction moves the train by what it works out, in its direction of travel. */
  lemma {:induction false} PredictedMoves(g: Track, w: World, now: int, moved: int)
    requires WellFormed(g) && Ready(g, w)
    ensures var t, w' := w.train, After(g, w, Predicted(now, moved));
      && w'.sw == w.sw
      && w'.train == t.(offset := t.offset + Forwards(t) * moved, distLeft := Less(t.distLeft, moved),
                        sitting := Sits(now, t.lastRead))
  {
    hide WellFormed, Known, Sits;
  }

  /** The driver's distance, if there is a driver, with so much gone. */
  function Less(distLeft: Option<int>, moved: int): Option<int> {
    if distLeft.Some? then Some(distLeft.value - moved) else None
  }

  /** The train is at `pos`, some way past it. */
  predicate At(t: Train, pos: nat, offset: int) {
    t.sensorPos == pos && t.tickPos == pos && t.offset == offset
  }

  /** A single reversal, with `x` the offset after the prediction that comes first. On a sensor
      the train is on the sensor's other side, as far the other way. Between sensors it is past
      the other side of the one ahead, by what it was short of it. At the end of the track it
      is where it was, coming the other way. Nothing else about it changes. */
  lemma {:induction false} ReversesOnce(g: Track, w: World, now: int, moved: int)
    requires WellFormed(g) && Ready(g, w) && Turns(w.train, SpeedSet(REVERSE_CMD, now, moved))
    ensures var t, w' := w.train, After(g, w, SpeedSet(REVERSE_CMD, now, moved));
      var t', x, ahead := w'.train, t.offset + Forwards(t) * moved, Next(g, w.sw, t.tickPos);
      && w'.sw == w.sw && t'.cmd == REVERSE_CMD && t'.initialized && t'.lastRead == t.lastRead
      && t'.distLeft == Less(t.distLeft, moved) && t'.sitting == Sits(now, t.lastRead)
      && (t'.approaching != t.approaching <==> !t'.sitting && ahead.None?)
      && (t'.sitting ==> At(t', g[t.sensorPos].reverse, -x))
      && (!t'.sitting && ahead.Some? ==>
            ahead.value.sensor < |g| && At(t', g[ahead.value.sensor].reverse, ahead.value.dist - x))
      && (!t'.sitting && ahead.None? ==> At(t', t.sensorPos, x))
  {
    if Next(g, w.sw, w.train.tickPos).Some? {
      NextProgress(g, w.sw, w.train.tickPos);
    }
    hide WellFormed, Known, Next, Sits;
  }

  /** A read that says something leaves the train sitting on a sensor: on the one it was last
      seen at, as it was; on the other side of it if it had not just reversed there, or on the
      sensor read, with no offset and facing away. Only an expected sensor changes the driver's
      distance. Any other read changes nothing. */
  lemma {:induction false} ReadPuts(g: Track, w: World, sensor: nat, tick: int)
    requires WellFormed(g) && Ready(g, w) && sensor < |g|
    ensures var t, w' := w.train, After(g, w, SensorRead(sensor, tick));
      var t', reading := w'.train, ReadingOf(g, w.sw, t.sensorPos, sensor);
      && w'.sw == w.sw && t'.cmd == t.cmd && t'.initialized == t.initialized
      && (reading.Unknown? ==> t' == t)
      && (!reading.Unknown? ==> t'.sitting && t'.lastRead == tick)
      && (reading.Same? || (reading.CameBack? && t.sitting) ==>
            At(t', t.sensorPos, t.offset) && t'.approaching == t.approaching)
      && ((reading.CameBack? && !t.sitting) || reading.Expected? || reading.Misbranched? ==>
            At(t', sensor, 0) && !t'.approaching)
      && t'.distLeft == (if reading.Expected? then Less(t.distLeft, -Delta(t.offset, reading.dist)) else t.distLeft)
  {
    hide WellFormed, Known, Next, ReadingOf, Delta;
  }

  /** A sensor that is neither side of the last one is expected, so far ahead, exactly if the
      switches lead there first; and the train has misbranched exactly if they do not, but lead
      back from it to the last sensor. */
  lemma {:induction false} ReadingByWalks(g: Track, sw: Switches, base: nat, sensor: nat, dist: int)
    requires WellFormed(g) && Known(g, sw) && base < |g| && sensor < |g|
    requires sensor != base && sensor != g[base].reverse
    ensures ReadingOf(g, sw, base, sensor) == Expected(dist) <==>
      exists p :: SensorWalk(g, sw, p, base, Hit(sensor, dist))
    ensures ReadingOf(g, sw, base, sensor).Misbranched? <==>
      && (forall d: int :: ReadingOf(g, sw, base, sensor) != Expected(d))
      && exists d: int, p :: SensorWalk(g, sw, p, g[sensor].reverse, Hit(g[base].reverse, d))
  {
    TrackIsShaped(g);
    ReverseInTrack(g, sensor);
    ReverseInTrack(g, base);
    NextIsFirstSensorAhead(g, sw, base, Hit(sensor, dist));
    var back := Next(g, sw, g[sensor].reverse);
    forall d: int
      ensures back == Some(Hit(g[base].reverse, d)) <==>
        exists p :: SensorWalk(g, sw, p, g[sensor].reverse, Hit(g[base].reverse, d))
    {
      NextIsFirstSensorAhead(g, sw, g[sensor].reverse, Hit(g[base].reverse, d));
    }
    if back.Some? {
      NextProgress(g, sw, g[sensor].reverse);
      assert MirrorOk(g, base) && MirrorOk(g, back.value.sensor);
    }
    hide WellFormed, Known, Next, SensorWalk;
  }

  /** Throwing a switch sets that switch, and moves no train. */
  lemma {:induction false} SwitchThrown(g: Track, w: World, num: int, dir: SwitchDir)
    requires WellFormed(g) && Ready(g, w) && num in w.sw
    ensures var w' := After(g, w, SwitchSet(num, dir));
      && w'.train == w.train && w'.sw[num] == dir
      && forall n | n in w.sw && n != num :: w'.sw[n] == w.sw[n]
  {
    hide WellFormed;
  }

  lemma {:induction false} ReverseInTrack(g: Track, n: nat)
    requires Shaped(g) && n < |g|
    ensures g[n].reverse < |g|
  {
  }

  // ----- The sum that predictions and expected sensors keep -----

  function Balance(t: Train): int
    requires t.distLeft.Some?
  {
    t.distLeft.value + t.offset
  }

  /** The track length an expected sensor confirms. */
  function Confirmed(g: Track, sw: Switches, t: Train, e: Event): int
    requires WellFormed(g) && Known(g, sw) && t.sensorPos < |g| && Sensible(g, sw.Keys, e)
  {
    if e.SensorRead? && ReadingOf(g, sw, t.sensorPos, e.sensor).Expected?
      then ReadingOf(g, sw, t.sensorPos, e.sensor).dist else 0
  }

  /** Nothing about the event upsets the sum. Told from the train and the switches before it. */
  predicate Steady(g: Track, sw: Switches, t: Train, e: Event)
    requires WellFormed(g) && Known(g, sw) && t.sensorPos < |g| && Sensible(g, sw.Keys, e)
  {
    match e
    case Predicted(_, moved) => !t.approaching || moved == 0
    case SpeedSet(speed, _, moved) => speed == t.cmd || !t.initialized || !t.approaching || moved == 0
    case SwitchSet(_, _) => true
    case SensorRead(sensor, _) =>
      match ReadingOf(g, sw, t.sensorPos, sensor)
      case Same => true
      case Unknown => true
      case CameBack => t.sitting || t.offset == 0
      case Misbranched => t.offset == 0
      case Expected(dist) => -0x80_0000 <= t.offset - dist < 0x80_0000
  }

  /** Short of a reversal, one event keeps the sum exactly if it is steady. */
  lemma {:induction false} BalanceLaw(g: Track, sw: Switches, t: Train, e: Event)
    requires WellFormed(g) && Known(g, sw) && Placed(g, t) && Sensible(g, sw.Keys, e)
    requires t.distLeft.Some? && !Turns(t, e)
    ensures Step(g, sw, t, e).distLeft.Some?
    ensures Balance(Step(g, sw, t, e)) + Confirmed(g, sw, t, e) == Balance(t) <==> Steady(g, sw, t, e)
  {
    hide WellFormed, Known, Next, Delta;
    if e.SensorRead? && ReadingOf(g, sw, t.sensorPos, e.sensor).Expected? {
      DeltaExact(t.offset, ReadingOf(g, sw, t.sensorPos, e.sensor).dist);
    }
  }

  ghost predicate SteadyRun(g: Track, w: World, es: seq<Event>)
    requires WellFormed(g) && Ready(g, w) && Possible(g, w.sw.Keys, es)
    decreases |es|
  {
    es == [] ||
    (Steady(g, w.sw, w.train, es[0]) && !Turns(w.train, es[0]) && SteadyRun(g, After(g, w, es[0]), es[1..]))
  }

  ghost function ConfirmedBy(g: Track, w: World, es: seq<Event>): int
    requires WellFormed(g) && Ready(g, w) && Possible(g, w.sw.Keys, es)
    decreases |es|
  {
    if es == [] then 0 else Confirmed(g, w.sw, w.train, es[0]) + ConfirmedBy(g, After(g, w, es[0]), es[1..])
  }

  /** Over any steady run, distance left + offset + confirmed track is constant: whatever
      the predictions were and whichever switches were thrown, each expected sensor cancels
      the error of the predictions before it. */
  lemma {:induction false} ErrorsCancel(g: Track, w: World, es: seq<Event>)
    requires WellFormed(g) && Ready(g, w) && Possible(g, w.sw.Keys, es)
    requires w.train.distLeft.Some? && SteadyRun(g, w, es)
    ensures Run(g, w, es).train.distLeft.Some?
    ensures Balance(Run(g, w, es).train) + ConfirmedBy(g, w, es) == Balance(w.train)
    decreases |es|
  {
    if es == [] {
    } else {
      BalanceLaw(g, w.sw, w.train, es[0]);
      assert After(g, w, es[0]).train == Step(g, w.sw, w.train, es[0]);
      hide WellFormed, Known, Steady, Step, Confirmed, After;
      ErrorsCancel(g, After(g, w, es[0]), es[1..]);
    }
  }

  // ----- Along a segment -----

  /** The train was last seen, or put, at `seg[k]`, and the driver's distance is right but for
      what was predicted since: `total` is the length of the driver's segment. */
  ghost predicate OnCourse(g: Track, seg: seq<nat>, t: Train, k: nat, total: int)
    requires Shaped(g) && IsWalk(g, seg)
  {
    && k < |seg| && !g[seg[k]].kind.Branch?
    && t.sensorPos == t.tickPos == seg[k] && !t.approaching
    && t.distLeft.Some? && Balance(t) == total - Odometer(g, seg, k)
  }

  /** What happens to a train that drives along the segment: predictions, switches thrown,
      speed commands that do not turn it round, and reads of where it is, of the next sensor,
      or of others. When the next sensor is read, the branches up to it are set for the
      segment; before that, and further on, they need not be. */
  ghost predicate Driving(g: Track, sw: Switches, seg: seq<nat>, t: Train, k: nat, e: Event)
    requires WellFormed(g) && Known(g, sw) && IsWalk(g, seg) && k < |seg| && Sensible(g, sw.Keys, e)
  {
    match e
    case Predicted(_, _) => true
    case SpeedSet(_, _, _) => !Turns(t, e)
    case SwitchSet(_, _) => true
    case SensorRead(sensor, _) =>
      match ReadingOf(g, sw, seg[k], sensor)
      case Same => true
      case Unknown => true
      case CameBack => t.sitting
      case Misbranched => false
      case Expected(dist) =>
        var next := NextSensorIndex(g, seg, k + 1);
        next < |seg| && SetBetween(g, sw, seg, k, next) && -0x80_0000 <= t.offset - dist < 0x80_0000
  }

  ghost function Along(g: Track, sw: Switches, seg: seq<nat>, k: nat, e: Event): nat
    requires WellFormed(g) && Known(g, sw) && InTrack(g, seg) && k < |seg| && Sensible(g, sw.Keys, e)
  {
    if e.SensorRead? && ReadingOf(g, sw, seg[k], e.sensor).Expected? then NextSensorIndex(g, seg, k + 1) else k
  }

  /** One step keeps the train on course; and an expected sensor is the segment's next one
      and leaves the distance exact. */
  lemma {:induction false} CourseStep(g: Track, sw: Switches, seg: seq<nat>, t: Train, k: nat, total: int, e: Event)
    requires WellFormed(g) && Known(g, sw) && IsWalk(g, seg) && OnCourse(g, seg, t, k, total)
    requires Sensible(g, sw.Keys, e) && Driving(g, sw, seg, t, k, e)
    ensures var k', t' := Along(g, sw, seg, k, e), Step(g, sw, t, e);
      && k <= k' && OnCourse(g, seg, t', k', total)
      && (k' != k ==> e.SensorRead? && e.sensor == seg[k'] && t'.distLeft == Some(total - Odometer(g, seg, k')))
  {
    CourseHit(g, sw, seg, t, k, total, e);
    CourseBalance(g, sw, seg, t, k, e);
    CoursePlace(g, sw, seg, t, k, e);
    hide WellFormed, Known, Next, Delta, IsWalk, Odometer, Step, Along, Driving, ReadingOf;
  }

  lemma {:induction false} CourseHit(g: Track, sw: Switches, seg: seq<nat>, t: Train, k: nat, total: int, e: Event)
    requires WellFormed(g) && Known(g, sw) && IsWalk(g, seg) && OnCourse(g, seg, t, k, total)
    requires Sensible(g, sw.Keys, e) && Driving(g, sw, seg, t, k, e)
    ensures var k' := Along(g, sw, seg, k, e);
      k <= k' < |seg| && (k' != k ==>
        && e.SensorRead? && e.sensor == seg[k'] && g[seg[k']].kind.Sensor?
        && ReadingOf(g, sw, seg[k], e.sensor) == Expected(Odometer(g, seg, k') - Odometer(g, seg, k)))
  {
    if Along(g, sw, seg, k, e) != k {
      PathLeads(g, sw, seg, k, NextSensorIndex(g, seg, k + 1));
    }
    hide WellFormed, Known, Next, IsWalk, SetBetween, Odometer;
  }

  lemma {:induction false} CoursePlace(g: Track, sw: Switches, seg: seq<nat>, t: Train, k: nat, e: Event)
    requires WellFormed(g) && Known(g, sw) && IsWalk(g, seg) && Placed(g, t) && k < |seg| && t.sensorPos == seg[k]
    requires !t.approaching && Sensible(g, sw.Keys, e) && Driving(g, sw, seg, t, k, e)
    ensures var t' := Step(g, sw, t, e);
      && !t'.approaching
      && (if Along(g, sw, seg, k, e) == k then t'.sensorPos == t'.tickPos == seg[k]
          else e.SensorRead? && t'.sensorPos == t'.tickPos == e.sensor && t'.offset == 0)
  {
    hide WellFormed, Known, Next, Delta, NextSensorIndex, SetBetween;
  }

  lemma {:induction false} CourseBalance(g: Track, sw: Switches, seg: seq<nat>, t: Train, k: nat, e: Event)
    requires WellFormed(g) && Known(g, sw) && IsWalk(g, seg) && Placed(g, t) && k < |seg| && t.sensorPos == seg[k]
    requires !t.approaching && t.distLeft.Some? && Sensible(g, sw.Keys, e) && Driving(g, sw, seg, t, k, e)
    ensures var after := Step(g, sw, t, e);
      after.distLeft.Some? && Balance(after) == Balance(t) -
        (if Along(g, sw, seg, k, e) != k then ReadingOf(g, sw, seg[k], e.sensor).dist else 0)
  {
    BalanceLaw(g, sw, t, e);
    hide WellFormed, Known, Next, Delta, Step, Balance, SetBetween;
  }

  ghost predicate DrivingRun(g: Track, seg: seq<nat>, w: World, k: nat, es: seq<Event>)
    requires WellFormed(g) && IsWalk(g, seg) && Ready(g, w) && Possible(g, w.sw.Keys, es)
    decreases |es|
  {
    k < |seg| && (es == [] ||
    (&& Driving(g, w.sw, seg, w.train, k, es[0])
     && DrivingRun(g, seg, After(g, w, es[0]), Along(g, w.sw, seg, k, es[0]), es[1..])))
  }

  /** Which node of the segment the run takes the train to. */
  ghost function AlongRun(g: Track, seg: seq<nat>, w: World, k: nat, es: seq<Event>): nat
    requires WellFormed(g) && IsWalk(g, seg) && Ready(g, w) && Possible(g, w.sw.Keys, es)
    requires DrivingRun(g, seg, w, k, es)
    decreases |es|
  {
    if es == [] then k else AlongRun(g, seg, After(g, w, es[0]), Along(g, w.sw, seg, k, es[0]), es[1..])
  }

  lemma {:induction false} StaysOnCourse(g: Track, seg: seq<nat>, w: World, k: nat, total: int, es: seq<Event>)
    requires WellFormed(g) && IsWalk(g, seg) && Ready(g, w) && Possible(g, w.sw.Keys, es)
    requires OnCourse(g, seg, w.train, k, total) && DrivingRun(g, seg, w, k, es)
    ensures var k' := AlongRun(g, seg, w, k, es); k <= k' && OnCourse(g, seg, Run(g, w, es).train, k', total)
    decreases |es|
  {
    if es == [] {
    } else {
      CourseStep(g, w.sw, seg, w.train, k, total, es[0]);
      assert After(g, w, es[0]).train == Step(g, w.sw, w.train, es[0]);
      hide WellFormed, Known, Driving, Step, Along, IsWalk, Odometer, After;
      StaysOnCourse(g, seg, After(g, w, es[0]), Along(g, w.sw, seg, k, es[0]), total, es[1..]);
    }
  }

  lemma {:induction false} ExactRead(g: Track, seg: seq<nat>, w: World, k: nat, total: int, sensor: nat, tick: int)
    requires WellFormed(g) && IsWalk(g, seg) && Ready(g, w) && sensor < |g| && OnCourse(g, seg, w.train, k, total)
    requires Driving(g, w.sw, seg, w.train, k, SensorRead(sensor, tick))
    requires ReadingOf(g, w.sw, seg[k], sensor).Expected?
    ensures var next := NextSensorIndex(g, seg, k + 1);
      && next < |seg| && sensor == seg[next]
      && Read(g, w.sw, w.train, sensor, tick).distLeft == Some(total - Odometer(g, seg, next))
  {
    CourseStep(g, w.sw, seg, w.train, k, total, SensorRead(sensor, tick));
    hide WellFormed, Known, Driving, ReadingOf, Read, Odometer, IsWalk;
  }

  /** However a train was driven and mispredicted along a segment, and whenever its switches
      were thrown, a read of the expected sensor with the branches up to it set is a read of
      the segment's next one, and leaves the driver's distance exact: what of the segment
      lies beyond that sensor. */
  lemma {:induction false} ExactAtSensors(
      g: Track, seg: seq<nat>, w: World, k: nat, total: int, es: seq<Event>, sensor: nat, tick: int)
    requires WellFormed(g) && IsWalk(g, seg) && Ready(g, w) && Possible(g, w.sw.Keys, es) && sensor < |g|
    requires OnCourse(g, seg, w.train, k, total) && DrivingRun(g, seg, w, k, es)
    requires var end, k' := Run(g, w, es), AlongRun(g, seg, w, k, es);
      k' < |seg| && Driving(g, end.sw, seg, end.train, k', SensorRead(sensor, tick))
        && ReadingOf(g, end.sw, seg[k'], sensor).Expected?
    ensures var end, next := Run(g, w, es), NextSensorIndex(g, seg, AlongRun(g, seg, w, k, es) + 1);
      && next < |seg| && sensor == seg[next]
      && Read(g, end.sw, end.train, sensor, tick).distLeft == Some(total - Odometer(g, seg, next))
  {
    hide *;
    TrackIsShaped(g);
    WalkIsInTrack(g, seg);
    StaysOnCourse(g, seg, w, k, total, es);
    ExactRead(g, seg, Run(g, w, es), AlongRun(g, seg, w, k, es), total, sensor, tick);
  }

  // ----- From the planner -----

  /** The walk's last node is as far along it as the walk is long. */
  lemma {:induction false} OdometerOfLast(g: Track, p: seq<nat>)
    requires Shaped(g) && IsWalk(g, p)
    ensures Odometer(g, p, |p| - 1) == WalkLen(g, p)
    decreases |p|
  {
    if |p| == 1 {
    } else {
      assert IsWalk(g, p[1..]);
      OdometerOfLast(g, p[1..]);
      OdometerShift(g, p, |p| - 1);
    }
  }

  lemma {:induction false} OdometerShift(g: Track, p: seq<nat>, i: nat)
    requires Shaped(g) && IsWalk(g, p) && IsWalk(g, p[1..]) && 0 < i < |p|
    ensures Odometer(g, p, i) == EdgeLen(g, p[0], p[1]) + Odometer(g, p[1..], i - 1)
    decreases i
  {
    if i == 1 {
    } else {
      OdometerShift(g, p, i - 1);
      assert p[1..][i - 2] == p[i - 1] && p[1..][i - 1] == p[i];
    }
  }

  lemma {:induction false} SegmentIsWalk(g: Track, plan: seq<FindPath.Segment>, i: nat)
    requires Shaped(g) && FindPath.IsPlan(g, plan) && i < |plan|
    ensures IsWalk(g, plan[i].nodes)
  {
  }

  lemma {:induction false} LastIsLast(p: seq<nat>)
    requires p != []
    ensures Last(p) == p[|p| - 1]
  {
  }

  /** What the driver means to do past the last node of the segment. */
  function Beyond(plan: seq<FindPath.Segment>, i: nat, endOffset: int): int {
    if i + 1 == |plan| then endOffset else 0
  }

  /** A driver that begins a segment of a plan with its train at the segment's first node (any
      but a branch) is on course, for the length of the segment's walk and how far to go past
      its end. The train may be past that node by what the planner was told, on the first
      segment. */
  lemma {:induction false} PlanSetsCourse(
      g: Track, plan: seq<FindPath.Segment>, startOffset: int, endOffset: int, i: nat, t: Train)
    requires Shaped(g) && FindPath.IsPlan(g, plan) && FindPath.Offset(g, plan, startOffset, endOffset) && i < |plan|
    requires var start := plan[i].nodes[0];
      t.sensorPos == t.tickPos == start && !g[start].kind.Branch? && !t.approaching
    requires t.offset == (if i == 0 then startOffset else 0) && t.distLeft == Some(plan[i].dist)
    ensures OnCourse(g, plan[i].nodes, t, 0, WalkLen(g, plan[i].nodes) + Beyond(plan, i, endOffset))
  {
  }

  /** So, whatever happened on the way, a driver that reads the last sensor of its segment has
      left exactly what lies past the end: nothing, or on the last segment the end offset. */
  lemma {:induction false} ExactAtTheEnd(
      g: Track, plan: seq<FindPath.Segment>, startOffset: int, endOffset: int, i: nat,
      w: World, es: seq<Event>, sensor: nat, tick: int)
    requires WellFormed(g) && FindPath.IsPlan(g, plan) && FindPath.Offset(g, plan, startOffset, endOffset) && i < |plan|
    requires Ready(g, w) && Possible(g, w.sw.Keys, es) && sensor < |g|
    requires var start := plan[i].nodes[0];
      w.train.sensorPos == w.train.tickPos == start && !g[start].kind.Branch? && !w.train.approaching
    requires w.train.offset == (if i == 0 then startOffset else 0) && w.train.distLeft == Some(plan[i].dist)
    requires DrivingRun(g, plan[i].nodes, w, 0, es)
    requires var end, k := Run(g, w, es), AlongRun(g, plan[i].nodes, w, 0, es);
      && k < |plan[i].nodes| && NextSensorIndex(g, plan[i].nodes, k + 1) == |plan[i].nodes| - 1
      && Driving(g, end.sw, plan[i].nodes, end.train, k, SensorRead(sensor, tick))
      && ReadingOf(g, end.sw, plan[i].nodes[k], sensor).Expected?
    ensures sensor == Last(plan[i].nodes)
    ensures var end := Run(g, w, es);
      Read(g, end.sw, end.train, sensor, tick).distLeft == Some(Beyond(plan, i, endOffset))
  {
    hide *;
    TrackIsShaped(g);
    var seg := plan[i].nodes;
    SegmentIsWalk(g, plan, i);
    WalkIsInTrack(g, seg);
    PlanSetsCourse(g, plan, startOffset, endOffset, i, w.train);
    OdometerOfLast(g, seg);
    ExactAtSensors(g, seg, w, 0, WalkLen(g, seg) + Beyond(plan, i, endOffset), es, sensor, tick);
    LastIsLast(seg);
  }

  // ----- Turning round twice -----

  /** With the switches as at the second reversal, the way between the train's sensor and the
      next leads back as it led there at the first; or there was no next sensor, and is none. */
  ghost predicate WayBackSet(g: Track, sw: Switches, back: Switches, n: nat)
    requires WellFormed(g) && Known(g, sw) && Known(g, back) && n < |g|
  {
    match Next(g, sw, n)
    case None => Next(g, back, n).None?
    case Some(hit) => g[n].kind.Sensor? && exists p :: SensorWalk(g, sw, p, n, hit) && MergesSetBack(g, back, p)
  }

  lemma {:induction false} TurnsBack(g: Track, sw: Switches, back: Switches, t: Train)
    requires WellFormed(g) && Known(g, sw) && Known(g, back) && Placed(g, t) && !t.sitting
    requires WayBackSet(g, sw, back, t.tickPos)
    ensures var turned := TurnRound(g, sw, t);
      if Next(g, sw, t.tickPos).None? then
        turned == t.(approaching := !t.approaching) && Next(g, back, t.tickPos).None?
      else
        var hit := Next(g, sw, t.tickPos).value;
        && hit.sensor < |g| && g[hit.sensor].reverse < |g|
        && var pos := g[hit.sensor].reverse;
        && turned == t.(sensorPos := pos, tickPos := pos, offset := hit.dist - t.offset)
        && g[t.tickPos].reverse < |g| && g[g[t.tickPos].reverse].reverse == t.tickPos
        && Next(g, back, turned.tickPos) == Some(Hit(g[t.tickPos].reverse, hit.dist))
  {
    if Next(g, sw, t.tickPos).Some? {
      var hit := Next(g, sw, t.tickPos).value;
      NextProgress(g, sw, t.tickPos);
      var p :| SensorWalk(g, sw, p, t.tickPos, hit) && MergesSetBack(g, back, p);
      NextBack(g, sw, back, p, t.tickPos, hit);
      assert MirrorOk(g, t.tickPos) && g[hit.sensor].reverse < |g|;
    }
    hide WellFormed, Known, Next, SensorWalk, MergesSetBack;
  }

  /** The event leaves the train on the sensor it was last seen at, facing the same way. */
  predicate Stays(g: Track, sw: Switches, t: Train, e: Event)
    requires WellFormed(g) && Known(g, sw) && t.sensorPos < |g| && Sensible(g, sw.Keys, e)
  {
    !Turns(t, e) && (e.SensorRead? ==>
      var reading := ReadingOf(g, sw, t.sensorPos, e.sensor);
      reading.Same? || reading.Unknown? || (reading.CameBack? && t.sitting))
  }

  ghost predicate StaysOnRun(g: Track, w: World, es: seq<Event>)
    requires WellFormed(g) && Ready(g, w) && Possible(g, w.sw.Keys, es)
    decreases |es|
  {
    es == [] || (Stays(g, w.sw, w.train, es[0]) && StaysOnRun(g, After(g, w, es[0]), es[1..]))
  }

  /** How far the event predicts the train to have moved. */
  function Moved(t: Train, e: Event): int {
    match e
    case Predicted(_, moved) => moved
    case SpeedSet(speed, _, moved) => if speed == t.cmd || !t.initialized then 0 else moved
    case _ => 0
  }

  ghost function MovedIn(g: Track, w: World, es: seq<Event>): int
    requires WellFormed(g) && Ready(g, w) && Possible(g, w.sw.Keys, es)
    decreases |es|
  {
    if es == [] then 0 else Moved(w.train, es[0]) + MovedIn(g, After(g, w, es[0]), es[1..])
  }

  lemma {:induction false} StaysThere(g: Track, w: World, es: seq<Event>)
    requires WellFormed(g) && Ready(g, w) && Possible(g, w.sw.Keys, es) && StaysOnRun(g, w, es)
    ensures var t := Run(g, w, es).train;
      && t.sensorPos == w.train.sensorPos && t.tickPos == w.train.tickPos
      && t.approaching == w.train.approaching && t.initialized == w.train.initialized
      && t.offset == w.train.offset + Forwards(w.train) * MovedIn(g, w, es)
    decreases |es|
  {
    if es == [] {
    } else {
      var w' := After(g, w, es[0]);
      StaysOneStep(g, w.sw, w.train, es[0]);
      hide WellFormed, Known, Step, Stays, Moved;
      StaysThere(g, w', es[1..]);
    }
  }

  lemma {:induction false} StaysOneStep(g: Track, sw: Switches, t: Train, e: Event)
    requires WellFormed(g) && Known(g, sw) && Placed(g, t) && Sensible(g, sw.Keys, e) && Stays(g, sw, t, e)
    ensures var t' := Step(g, sw, t, e);
      && t'.sensorPos == t.sensorPos && t'.tickPos == t.tickPos
      && t'.approaching == t.approaching && t'.initialized == t.initialized
      && t'.offset == t.offset + Forwards(t) * Moved(t, e)
  {
    hide WellFormed, Known, ReadingOf, Next;
  }

  /** The train turns round, drives back for as long as it takes, and turns round again: it is
      where it was, but for how far it went forth (`m1`) and back (in `es`, and `m2`). Any
      events may come between that do not move it to another sensor; one of them must be
      another speed command, because the server ignores a command that repeats the last.
      Only at the second reversal must the way back be set. */
  lemma {:induction false} ThereAndBack(
      g: Track, w: World, n1: int, m1: int, es: seq<Event>, n2: int, m2: int)
    requires WellFormed(g) && Ready(g, w) && Possible(g, w.sw.Keys, es)
    requires w.train.initialized && w.train.cmd != REVERSE_CMD
    requires var turned := After(g, w, SpeedSet(REVERSE_CMD, n1, m1));
      && StaysOnRun(g, turned, es)
      && var there := Run(g, turned, es);
      && there.train.cmd != REVERSE_CMD
      && (Sits(n1, w.train.lastRead) <==> Sits(n2, there.train.lastRead))
      && (Sits(n1, w.train.lastRead) || WayBackSet(g, w.sw, there.sw, w.train.tickPos))
    ensures var turned := After(g, w, SpeedSet(REVERSE_CMD, n1, m1));
      var back := After(g, Run(g, turned, es), SpeedSet(REVERSE_CMD, n2, m2)).train;
      && back.sensorPos == back.tickPos == w.train.tickPos
      && back.offset == w.train.offset + Forwards(w.train) * (m1 - MovedIn(g, turned, es) - m2)
      && back.approaching == w.train.approaching
  {
    var turned := After(g, w, SpeedSet(REVERSE_CMD, n1, m1));
    var there := Run(g, turned, es);
    StaysThere(g, turned, es);
    var t := Predict(w.train, n1, m1);
    assert turned.train == TurnRound(g, w.sw, t).(cmd := REVERSE_CMD);
    if Sits(n1, w.train.lastRead) {
      assert MirrorOk(g, w.train.sensorPos);
    } else {
      TurnsBack(g, w.sw, there.sw, t);
    }
    hide WellFormed, Known, Next, Run, StaysOnRun, MovedIn, WayBackSet;
  }

  // ----- The server's handlers -----

  class TrainTracker {
    const g: Track
    var sensorPos: nat
    var tickPos: nat
    var offset: int
    var approaching: bool
    var sitting: bool
    var lastRead: int
    var cmd: int
    var initialized: bool
    var distLeft: Option<int>

    ghost predicate Valid()
      reads this
    {
      WellFormed(g) && sensorPos == tickPos < |g|
    }

    ghost function View(): Train
      reads this
    {
      Train(sensorPos, tickPos, offset, approaching, sitting, lastRead, cmd, initialized, distLeft)
    }

    /** The operator says where a train is. */
    constructor (g: Track, node: nat, offset: int, cmd: int)
      requires WellFormed(g) && node < |g|
      ensures Valid() && this.g == g && View() == Train(node, node, offset, false, false, 0, cmd, true, None)
    {
      this.g, sensorPos, tickPos, this.offset := g, node, node, offset;
      approaching, sitting, lastRead, this.cmd, initialized, distLeft := false, false, 0, cmd, true, None;
    }

    /** The operator says it again. */
    method HandlePosInit(node: nat, offset: int)
      requires Valid() && node < |g|
      modifies this
      ensures Valid()
      ensures View() == Train(node, node, offset, false, false, old(lastRead), old(cmd), true, old(distLeft))
    {
      sensorPos := node;
      tickPos := sensorPos;
      this.offset := offset;
      approaching := false;
      sitting := false;
      initialized := true;
    }

    /** `moved` is what the prediction works out; a train that stands is not predicted. */
    method HandlePredict(now: int, standing: bool, moved: int)
      requires Valid()
      modifies this
      ensures Valid() && View() == Predict(old(View()), now, if standing then 0 else moved)
    {
      sitting := AsU32(now - lastRead) < TRAIN_SENSOR_EXPIRE_TIMEOUT;
      if standing {
        return;
      }
      if approaching {
        offset := offset - moved;
      } else {
        offset := offset + moved;
      }
      if distLeft.Some? {
        distLeft := Some(distLeft.value - moved);
      }
    }

    method ResetSnaps(sensor: nat)
      requires WellFormed(g) && sensor < |g|
      modifies this
      ensures Valid() && View() ==
        old(View()).(sensorPos := sensor, tickPos := sensor, offset := 0, approaching := false)
    {
      sensorPos := sensor;
      offset := 0;
      tickPos := sensorPos;
      approaching := false;
    }

    /** Whether the read said something about this train that is worth showing. */
    method AdjustFromSensor(sensor: nat, tick: int, standing: bool, switches: Switches) returns (changed: bool)
      requires Valid() && Known(g, switches) && sensor < |g|
      modifies this
      ensures Valid() && View() == Read(g, switches, old(View()), sensor, tick)
      ensures var reading := ReadingOf(g, switches, old(sensorPos), sensor);
        changed <==> !reading.Unknown? && (reading.Same? ==> standing)
    {
      assert Shaped(g);
      hide WellFormed, Known, Next, Delta, TrainTracker.Valid;
      if sensorPos == sensor {
        lastRead := tick;
        sitting := true;
        return standing;
      }
      if g[sensorPos].reverse == sensor {
        lastRead := tick;
        var wasOnSensor := sitting;
        sitting := true;
        if wasOnSensor {
          return true;
        }
        ResetSnaps(sensor);
        return true;
      }
      changed := AdjustFromAnother(sensor, tick, switches);
    }

    /** The read is of neither side of the sensor the train was last seen at. */
    method AdjustFromAnother(sensor: nat, tick: int, switches: Switches) returns (changed: bool)
      requires Valid() && Known(g, switches) && sensor < |g| && sensor != sensorPos && sensor != g[sensorPos].reverse
      modifies this
      ensures Valid() && View() == Read(g, switches, old(View()), sensor, tick)
      ensures changed <==> !ReadingOf(g, switches, old(sensorPos), sensor).Unknown?
    {
      hide WellFormed, Known, Next, Delta, Shaped;
      TrackIsShaped(g);
      ReverseInTrack(g, sensor);
      hide TrainTracker.Valid;
      var next := NextSensor(g, sensorPos, switches);
      if next.None? || sensor != next.value.sensor {
        var prev := NextSensor(g, g[sensor].reverse, switches);
        if prev.Some? {
          NextProgress(g, switches, g[sensor].reverse);
        }
        if prev.None? || g[prev.value.sensor].reverse != sensorPos {
          return false;
        }
        lastRead := tick;
        sitting := true;
        ResetSnaps(sensor);
        return true;
      }
      lastRead := tick;
      sitting := true;
      if distLeft.Some? {
        distLeft := Some(distLeft.value + Delta(offset, next.value.dist));
      }
      ResetSnaps(sensor);
      return true;
    }

    method HandleSpeedCmd(speed: int, now: int, standing: bool, moved: int, switches: Switches)
      requires Valid() && Known(g, switches)
      modifies this
      ensures Valid() && View() == SpeedCmd(g, switches, old(View()), speed, now, if standing then 0 else moved)
    {
      if speed == cmd {
        return;
      }
      if initialized {
        HandlePredict(now, standing, moved);
        if speed == REVERSE_CMD {
          if sitting {
            sensorPos := g[sensorPos].reverse;
            tickPos := sensorPos;
            offset := -offset;
          } else {
            var next := NextSensor(g, tickPos, switches);
            if next.Some? {
              NextProgress(g, switches, tickPos);
              sensorPos := g[next.value.sensor].reverse;
              tickPos := sensorPos;
              offset := next.value.dist - offset;
            } else {
              approaching := !approaching;
            }
          }
        }
      }
      cmd := speed;
    }
  }
}
