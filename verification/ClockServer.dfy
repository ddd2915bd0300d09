/** The clock server (`kern/servers.cpp`): countdowns over a 32-bit tick, which refine
    absolute deadlines. The kernel keeps a client that waits for its answer from sending. */
module ClockServer {
  import opened MachineInts
  import opened Sequences

  datatype Message = Time | Delay(ticks: nat) | DelayUntil(tick: nat) | Notify | Unknown

  /** What the clients see, kept to state what the server promises: a delay asked for with
      the absolute time it is due at, and the answers with the time they were given at. */
  datatype Event =
    | Asked(tid: int, due: nat)
    | Answered(tid: int, at: nat, payload: nat)
    | Refused(tid: int)
    | Told(tid: int, payload: nat)

  datatype Waiting = NotWaiting | Until(due: nat) | Broken

  /** Where a client stands after one more event: each delay is answered once, when it is
      due and with that time as the payload, before the client asks again. */
  function WaitStep(w: Waiting, e: Event, tid: int): Waiting {
    match e
    case Asked(t, due) => if t != tid then w else if w.NotWaiting? then Until(due) else Broken
    case Answered(t, at, payload) =>
      if t != tid then w else if w == Until(at) && payload == AsU32(at) then NotWaiting else Broken
    case Refused(t) => if t != tid || w.NotWaiting? then w else Broken
    case Told(t, _) => if t != tid || w.NotWaiting? then w else Broken
  }

  function WaitAfter(log: seq<Event>, tid: int): Waiting {
    if log == [] then NotWaiting else WaitStep(WaitAfter(log[..|log| - 1], tid), log[|log| - 1], tid)
  }

  lemma {:induction false} WaitSnoc(log: seq<Event>, e: Event, tid: int)
    ensures WaitAfter(log + [e], tid) == WaitStep(WaitAfter(log, tid), e, tid)
  {
    assert (log + [e])[..|log|] == log;
  }

  lemma {:induction false} BrokenStays(log: seq<Event>, tid: int, n: nat)
    requires n <= |log| && WaitAfter(log, tid) != Broken
    ensures WaitAfter(log[..n], tid) != Broken
    decreases |log|
  {
    if n == |log| {
      assert log[..n] == log;
    } else {
      BrokenStays(log[..|log| - 1], tid, n);
      assert log[..|log| - 1][..n] == log[..n];
    }
  }

  predicate Concerns(e: Event, tid: int) {
    (e.Asked? || e.Answered?) && e.tid == tid
  }

  /** The request that a waiting client last made. */
  lemma {:induction false} LastAsked(log: seq<Event>, tid: int) returns (i: nat)
    requires WaitAfter(log, tid).Until?
    ensures i < |log| && log[i] == Asked(tid, WaitAfter(log, tid).due)
    ensures forall m | i < m < |log| :: !Concerns(log[m], tid)
    decreases |log|
  {
    var n := |log| - 1;
    if log[n] == Asked(tid, WaitAfter(log, tid).due) {
      i := n;
    } else {
      i := LastAsked(log[..n], tid);
    }
  }

  /** In an unbroken history every answer is to the client's last request, at the very time
      it was due, with that time as its payload; and that request had no other answer. */
  lemma {:induction false} AnswerMatches(log: seq<Event>, tid: int, k: nat) returns (i: nat)
    requires WaitAfter(log, tid) != Broken && k < |log| && log[k].Answered? && log[k].tid == tid
    ensures log[k].payload == AsU32(log[k].at)
    ensures i < k && log[i] == Asked(tid, log[k].at)
    ensures forall m | i < m < k :: !Concerns(log[m], tid)
  {
    BrokenStays(log, tid, k + 1);
    assert log[..k + 1][..k] == log[..k];
    i := LastAsked(log[..k], tid);
  }

  /** What became of request `i` in an unbroken history: the client's next event is its
      answer, or there is none and the client still waits. */
  lemma {:induction false} FateOf(log: seq<Event>, tid: int, i: nat) returns (k: nat)
    requires WaitAfter(log, tid) != Broken && i < |log| && log[i].Asked? && log[i].tid == tid
    ensures i < k <= |log| && forall m | i < m < k :: log[m].tid != tid
    ensures if k < |log| then log[k] == Answered(tid, log[i].due, AsU32(log[i].due))
            else WaitAfter(log, tid) == Until(log[i].due)
    decreases |log|
  {
    var n := |log| - 1;
    if i == n {
      k := |log|;
    } else {
      k := FateOf(log[..n], tid, i);
      if k == n && log[n].tid != tid {
        k := |log|;
      }
    }
  }

  // ----- What each message means -----

  /** The server as its clients see it: the time, and what has happened. */
  datatype Moment = Moment(now: nat, log: seq<Event>)

  /** A delay of `n` is noted with the time it is due at; one of no time is answered at once. */
  function Requested(tid: int, now: nat, n: nat): seq<Event> {
    [Asked(tid, now + n)] + if n == 0 then [Answered(tid, now, AsU32(now))] else []
  }

  /** Where the client stands when the time has become `now`. */
  function Due(w: Waiting, now: nat): Waiting {
    if w == Until(now) then NotWaiting else w
  }

  /** A tick: time goes on by one, and exactly the clients that waited for this time are
      answered, with what the tick now reads. */
  ghost predicate Ticked(a: Moment, b: Moment) {
    && b.now == a.now + 1 && a.log <= b.log
    && (forall e | e in b.log[|a.log|..] :: e == Answered(e.tid, b.now, AsU32(b.now)))
    && (forall t :: WaitAfter(b.log, t) == Due(WaitAfter(a.log, t), b.now))
  }

  /** What a message from `tid` does. */
  ghost predicate Served(tid: int, message: Message, a: Moment, b: Moment) {
    match message
    case Time => b == Moment(a.now, a.log + [Told(tid, AsU32(a.now))])
    case Delay(n) => b == Moment(a.now, a.log + Requested(tid, a.now, n))
    case DelayUntil(tick) =>
      var n := AsI32(tick - AsU32(a.now));
      if n < 0 then b == Moment(a.now, a.log + [Refused(tid)])
      else AsU32(a.now + n) == tick && b == Moment(a.now, a.log + Requested(tid, a.now, n))
    case Notify => Ticked(a, b)
    case Unknown => b == a
  }

  /** Nobody has been answered wrongly or ahead of time, or is overdue. */
  ghost predicate Sound(m: Moment) {
    && (forall t :: WaitAfter(m.log, t) != Broken)
    && (forall t :: WaitAfter(m.log, t).Until? ==> m.now < WaitAfter(m.log, t).due)
    && (forall e | e in m.log && e.Answered? :: e.at <= m.now)
  }

  /** What a countdown means at time `now`, or if it is still to be taken down for this tick. */
  function Standing(delays: map<int, nat>, now: nat, tid: int, late: bool): Waiting {
    if tid !in delays || delays[tid] == 0 then NotWaiting
    else if late then Until(if now == 0 then 0 else now - 1 + delays[tid])
    else Until(now + delays[tid])
  }

  function TickedDown(n: nat): nat {
    if n == 0 then 0 else n - 1
  }

  /** How client `tid` stands in the middle of a tick: its countdown is still to be taken
      down, or it has been, and it has its answer if that was due. */
  ghost predicate InTick(before: map<int, nat>, delays: map<int, nat>, log: seq<Event>, now: nat, answers: seq<Event>,
                         tid: int, late: bool) {
    && (tid in delays <==> tid in before)
    && (tid in before ==> delays[tid] == if late then before[tid] else TickedDown(before[tid]))
    && WaitAfter(log, tid) == Standing(delays, now, tid, late)
    && (tid in before && before[tid] == 1 && !late ==> Answered(tid, now, AsU32(now)) in answers)
  }

  ghost predicate AllInTick(before: map<int, nat>, delays: map<int, nat>, log: seq<Event>, now: nat,
                            answers: seq<Event>, left: seq<int>) {
    forall tid :: InTick(before, delays, log, now, answers, tid, tid in left)
  }

  lemma {:induction false} TickHead(before: map<int, nat>, delays: map<int, nat>, log: seq<Event>, now: nat,
                                    answers: seq<Event>, left: seq<int>)
    requires left != [] && left[0] in before && AllInTick(before, delays, log, now, answers, left)
    ensures var tid := left[0];
      tid in delays && delays[tid] == before[tid] && WaitAfter(log, tid) == Standing(delays, now, tid, true)
  {
    assert InTick(before, delays, log, now, answers, left[0], left[0] in left);
  }

  lemma {:induction false} TickOne(before: map<int, nat>, delays: map<int, nat>, delays': map<int, nat>,
                                   log: seq<Event>, log': seq<Event>,
                                   now: nat, answers: seq<Event>, answers': seq<Event>, left: seq<int>)
    requires left != [] && left[0] in before && left[0] !in left[1..]
      && AllInTick(before, delays, log, now, answers, left)
    requires var tid := left[0];
      && delays' == delays[tid := TickedDown(before[tid])]
      && answers' == answers + (if before[tid] == 1 then [Answered(tid, now, AsU32(now))] else [])
      && WaitAfter(log', tid) == Standing(delays', now, tid, false)
    requires forall t | t != left[0] :: WaitAfter(log', t) == WaitAfter(log, t)
    ensures AllInTick(before, delays', log', now, answers', left[1..])
  {
    forall t
      ensures InTick(before, delays', log', now, answers', t, t in left[1..])
    {
      assert InTick(before, delays, log, now, answers, t, t in left);
      assert left == [left[0]] + left[1..];
    }
  }

  class Server {
    var ticks: nat
    var delays: map<int, nat>
    ghost var now: nat
    ghost var log: seq<Event>

    /** The client waits, and for how long. */
    ghost predicate Pending(tid: int)
      reads this
    {
      tid in delays && delays[tid] != 0
    }

    /** Every countdown stands for a deadline still to come, and each client stands where
        the history says. */
    ghost predicate Valid()
      reads this
    {
      && ticks == AsU32(now)
      && (forall tid | tid in delays :: delays[tid] < U32)
      && (forall tid :: WaitAfter(log, tid) == Standing(delays, now, tid, false))
    }

    constructor ()
      ensures Valid() && now == 0 && log == [] && Sound(Moment(now, log))
    {
      ticks, delays, now, log := 0, map[], 0, [];
    }

    ghost method Note(e: Event)
      modifies this`log
      ensures log == old(log) + [e]
      ensures forall tid :: WaitAfter(log, tid) == WaitStep(WaitAfter(old(log), tid), e, tid)
    {
      forall tid {
        WaitSnoc(log, e, tid);
      }
      log := log + [e];
    }

    method HandleTime(tid: int)
      requires Valid() && !Pending(tid)
      modifies this`log
      ensures Valid() && log == old(log) + [Told(tid, AsU32(now))]
    {
      Note(Told(tid, ticks));
    }

    /** A delay of no time is answered at once. */
    method HandleDelay(tid: int, delay: nat)
      requires Valid() && !Pending(tid) && delay < U32
      modifies this`delays, this`log
      ensures Valid() && log == old(log) + Requested(tid, now, delay)
      ensures Pending(tid) <==> delay > 0
    {
      Note(Asked(tid, now + delay));
      if delay > 0 {
        delays := delays[tid := delay];
      } else {
        Note(Answered(tid, now, ticks));
      }
    }

    /** Due when the tick next reads `tick`, within half its range; before that half it is
        refused as past. */
    method HandleDelayUntil(tid: int, tick: nat)
      requires Valid() && !Pending(tid) && tick < U32
      modifies this`delays, this`log
      ensures Valid()
      ensures var delay := AsI32(tick - AsU32(now));
        if delay < 0 then log == old(log) + [Refused(tid)]
        else
          && AsU32(now + delay) == tick && log == old(log) + Requested(tid, now, delay)
          && (Pending(tid) <==> delay > 0)
    {
      var delay := AsI32(tick - ticks);
      DueReads(now, tick);
      if delay > 0 {
        Note(Asked(tid, now + delay));
        delays := delays[tid := delay];
      } else if delay == 0 {
        Note(Asked(tid, now));
        Note(Answered(tid, now, ticks));
      } else {
        Note(Refused(tid));
      }
    }

    /** One client's share of a tick. */
    method TickClient(tid: int)
      requires ticks == AsU32(now) && now > 0 && tid in delays
        && WaitAfter(log, tid) == Standing(delays, now, tid, true)
      modifies this`delays, this`log
      ensures WaitAfter(log, tid) == Standing(delays, now, tid, false)
      ensures delays == old(delays)[tid := if old(delays)[tid] == 0 then 0 else old(delays)[tid] - 1]
      ensures log == old(log) + if old(delays)[tid] == 1 then [Answered(tid, now, AsU32(now))] else []
      ensures forall t | t != tid :: WaitAfter(log, t) == WaitAfter(old(log), t)
    {
      if delays[tid] != 0 {
        delays := delays[tid := delays[tid] - 1];
        if delays[tid] == 0 {
          Note(Answered(tid, now, ticks));
        }
      }
    }

    /** The loop over the countdowns, each of which is taken down for this tick. */
    method TickAll(order: seq<int>) returns (ghost answers: seq<Event>)
      requires ticks == AsU32(now) && now > 0 && EntriesOf(order, delays.Keys)
      requires AllInTick(delays, delays, log, now, [], order)
      modifies this`delays, this`log
      ensures log == old(log) + answers && AllInTick(old(delays), delays, log, now, answers, [])
      ensures forall e | e in answers ::
        e == Answered(e.tid, now, AsU32(now)) && e.tid in old(delays) && old(delays)[e.tid] == 1
    {
      ghost var before, start := delays, log;
      answers := [];
      var k := 0;
      assert order[0..] == order;
      hide AllInTick, InTick, Standing, WaitAfter, WaitStep, AsU32;
      while k < |order|
        invariant 0 <= k <= |order|
        invariant AllInTick(before, delays, log, now, answers, order[k..])
        invariant log == start + answers
        invariant forall e | e in answers ::
          e == Answered(e.tid, now, AsU32(now)) && e.tid in before && before[e.tid] == 1
      {
        var tid := order[k];
        ghost var delays0, log0, answers0 := delays, log, answers;
        assert order[k..][1..] == order[k + 1..];
        TickHead(before, delays, log, now, answers, order[k..]);
        answers := answers + if delays[tid] == 1 then [Answered(tid, now, AsU32(now))] else [];
        TickClient(tid);
        TickOne(before, delays0, delays, log0, log, now, answers0, answers, order[k..]);
        k := k + 1;
      }
      assert order[k..] == [];
    }

    /** A tick: every client due now is answered, and no other, whatever the order in which
        the map holds them. */
    method HandleNotify(order: seq<int>)
      requires Valid() && EntriesOf(order, delays.Keys)
      modifies this
      ensures Valid() && now == old(now) + 1 && Ticked(Moment(old(now), old(log)), Moment(now, log))
      ensures forall tid :: Pending(tid) <==> old(Pending(tid)) && old(delays)[tid] > 1
      ensures forall e | e in log[|old(log)|..] :: e.tid in old(delays) && old(delays)[e.tid] == 1
      ensures forall tid | tid in old(delays) && old(delays)[tid] == 1 ::
        Answered(tid, now, AsU32(now)) in log[|old(log)|..]
    {
      ticks := AsU32(ticks + 1);
      now := now + 1;
      ghost var before, start := delays, log;
      assert AllInTick(before, delays, log, now, [], order);
      hide AllInTick, Standing, Due, WaitAfter, WaitStep, AsU32;
      ghost var answers := TickAll(order);
      AllTicked(before, delays, log, now, answers);
      AllDue(before, delays, start, log, now);
      assert log[|start|..] == answers;
    }

    /** What the server owes for its `i`-th event, if that is a request whose time has come. */
    lemma {:induction false} OwesNothing(i: nat) returns (k: nat)
      requires Valid() && i < |log| && log[i].Asked? && log[i].due <= now
      ensures i < k < |log| && log[k] == Answered(log[i].tid, log[i].due, AsU32(log[i].due))
      ensures forall m | i < m < |log| && log[m].tid == log[i].tid :: k <= m
    {
      k := DueIsAnswered(log, delays, now, log[i].tid, i);
    }

    /** One message, which does what it says. The kernel lets no client send while it waits for an answer. */
    method Handle(tid: int, message: Message, order: seq<int>)
      requires Valid() && (message.Notify? ==> EntriesOf(order, delays.Keys))
      requires !message.Notify? ==> !Pending(tid)
      requires message.Delay? ==> message.ticks < U32
      requires message.DelayUntil? ==> message.tick < U32
      modifies this
      ensures Valid() && Served(tid, message, Moment(old(now), old(log)), Moment(now, log))
    {
      match message
      case Time => HandleTime(tid);
      case Delay(ticks) => HandleDelay(tid, ticks);
      case DelayUntil(tick) => HandleDelayUntil(tid, tick);
      case Notify => HandleNotify(order);
      case Unknown =>
    }
  }

  lemma {:induction false} AllTicked(before: map<int, nat>, delays: map<int, nat>, log: seq<Event>, now: nat,
                                     answers: seq<Event>)
    requires AllInTick(before, delays, log, now, answers, [])
    ensures forall tid | tid in delays :: tid in before && delays[tid] == TickedDown(before[tid])
    ensures forall tid | tid in before :: tid in delays
    ensures forall tid :: WaitAfter(log, tid) == Standing(delays, now, tid, false)
    ensures forall tid | tid in before && before[tid] == 1 :: Answered(tid, now, AsU32(now)) in answers
  {
    var none: seq<int> := [];
    forall tid
      ensures tid in delays <==> tid in before
      ensures tid in delays ==> delays[tid] == TickedDown(before[tid])
      ensures WaitAfter(log, tid) == Standing(delays, now, tid, false)
      ensures tid in before && before[tid] == 1 ==> Answered(tid, now, AsU32(now)) in answers
    {
      assert InTick(before, delays, log, now, answers, tid, tid in none);
    }
  }

  lemma {:induction false} AllDue(before: map<int, nat>, delays: map<int, nat>, start: seq<Event>, log: seq<Event>,
                                  now: nat)
    requires now > 0 && forall tid | tid in before :: tid in delays
    requires forall tid | tid in delays :: tid in before && delays[tid] == TickedDown(before[tid])
    requires forall tid :: WaitAfter(start, tid) == Standing(before, now - 1, tid, false)
    requires forall tid :: WaitAfter(log, tid) == Standing(delays, now, tid, false)
    ensures forall tid :: WaitAfter(log, tid) == Due(WaitAfter(start, tid), now)
  {
    hide WaitAfter;
  }

  lemma {:induction false} DueReads(now: nat, tick: nat)
    requires tick < U32
    ensures var delay := AsI32(tick - AsU32(now));
      delay < U32 && (delay >= 0 ==> AsU32(now + delay) == tick) && (delay == 0 ==> AsU32(now) == tick)
  {
    var d := tick - AsU32(now);
    assert now == now / U32 * U32 + AsU32(now);
    if AsI32(d) >= 0 {
      if d >= 0 {
        ModAdd(now / U32, tick);
      } else {
        ModAdd(now / U32 + 1, tick);
      }
    }
  }

  lemma {:induction false} ModAdd(k: int, x: nat)
    requires x < U32
    ensures (k * U32 + x) % U32 == x
  {
  }

  /** No request is forgotten: once its time has come, the client's next event is the answer
      to it, at that very time. There is only one such event, so one answer. */
  lemma {:induction false} DueIsAnswered(log: seq<Event>, delays: map<int, nat>, now: nat, tid: int, i: nat)
    returns (k: nat)
    requires WaitAfter(log, tid) == Standing(delays, now, tid, false)
    requires i < |log| && log[i].Asked? && log[i].tid == tid && log[i].due <= now
    ensures i < k < |log| && log[k] == Answered(tid, log[i].due, AsU32(log[i].due))
    ensures forall m | i < m < |log| && log[m].tid == tid :: k <= m
  {
    k := FateOf(log, tid, i);
  }

  /** A client still waiting is not overdue. */
  lemma {:induction false} NeverLate(log: seq<Event>, delays: map<int, nat>, now: nat, tid: int)
    requires WaitAfter(log, tid) == Standing(delays, now, tid, false)
    ensures WaitAfter(log, tid).Until? ==> now < WaitAfter(log, tid).due
    ensures WaitAfter(log, tid) != Broken
  {
  }

  // ----- Any sequence of messages -----

  datatype Request = Request(tid: int, message: Message)

  /** The messages, one after the other, take the server from `a` to `b`. No client sends
      while it waits for an answer. */
  ghost predicate Leads(a: Moment, rs: seq<Request>, b: Moment)
    decreases |rs|
  {
    if rs == [] then b == a
    else
      && (!rs[0].message.Notify? ==> WaitAfter(a.log, rs[0].tid).NotWaiting?)
      && exists m: Moment :: Served(rs[0].tid, rs[0].message, a, m) && Leads(m, rs[1..], b)
  }

  function Notifies(rs: seq<Request>): nat {
    if rs == [] then 0 else (if rs[0].message.Notify? then 1 else 0) + Notifies(rs[1..])
  }

  lemma {:induction false} AskedSound(tid: int, a: Moment, n: nat)
    requires Sound(a) && WaitAfter(a.log, tid).NotWaiting? && n > 0
    ensures Sound(Moment(a.now, a.log + [Asked(tid, a.now + n)]))
  {
    var b := Moment(a.now, a.log + [Asked(tid, a.now + n)]);
    hide WaitAfter;
    forall t
      ensures WaitAfter(b.log, t) == if t == tid then Until(a.now + n) else WaitAfter(a.log, t)
    {
      WaitSnoc(a.log, Asked(tid, a.now + n), t);
    }
    assert forall t :: WaitAfter(b.log, t) != Broken;
    assert forall t :: WaitAfter(b.log, t).Until? ==> b.now < WaitAfter(b.log, t).due;
    assert forall e | e in b.log && e.Answered? :: e.at <= b.now;
  }

  lemma {:induction false} AtOnceSound(tid: int, a: Moment)
    requires Sound(a) && WaitAfter(a.log, tid).NotWaiting?
    ensures Sound(Moment(a.now, a.log + [Asked(tid, a.now), Answered(tid, a.now, AsU32(a.now))]))
  {
    var asked, answered := Asked(tid, a.now), Answered(tid, a.now, AsU32(a.now));
    assert a.log + [asked, answered] == a.log + [asked] + [answered];
    forall t
      ensures WaitAfter(a.log + [asked, answered], t) == WaitAfter(a.log, t)
    {
      WaitSnoc(a.log, asked, t);
      WaitSnoc(a.log + [asked], answered, t);
    }
    hide WaitAfter, AsU32;
  }

  lemma {:induction false} RequestedSound(tid: int, a: Moment, n: nat)
    requires Sound(a) && WaitAfter(a.log, tid).NotWaiting?
    ensures Sound(Moment(a.now, a.log + Requested(tid, a.now, n)))
  {
    hide Sound, WaitAfter, AsU32;
    if n == 0 {
      AtOnceSound(tid, a);
      assert Requested(tid, a.now, n) == [Asked(tid, a.now), Answered(tid, a.now, AsU32(a.now))];
    } else {
      AskedSound(tid, a, n);
      assert Requested(tid, a.now, n) == [Asked(tid, a.now + n)];
    }
  }

  lemma {:induction false} OneMoreSound(tid: int, a: Moment, e: Event)
    requires Sound(a) && WaitAfter(a.log, tid).NotWaiting? && (e.Told? || e.Refused?) && e.tid == tid
    ensures Sound(Moment(a.now, a.log + [e]))
  {
    forall t
      ensures WaitAfter(a.log + [e], t) == WaitAfter(a.log, t)
    {
      WaitSnoc(a.log, e, t);
    }
    hide WaitAfter;
  }

  lemma {:induction false} TickedSound(a: Moment, b: Moment)
    requires Sound(a) && Ticked(a, b)
    ensures Sound(b) && a.log <= b.log && b.now == a.now + 1
  {
    forall e | e in b.log && e.Answered?
      ensures e.at <= b.now
    {
      assert b.log == a.log + b.log[|a.log|..];
    }
    hide WaitAfter, AsU32;
  }

  /** A message leaves everybody answered rightly and nobody overdue. */
  lemma {:induction false} ServedSound(tid: int, message: Message, a: Moment, b: Moment)
    requires Sound(a) && Served(tid, message, a, b)
    requires !message.Notify? ==> WaitAfter(a.log, tid).NotWaiting?
    ensures Sound(b) && a.log <= b.log && b.now == a.now + if message.Notify? then 1 else 0
  {
    hide WaitAfter, AsU32, AsI32, Sound, Requested, Ticked;
    match message {
      case Time => OneMoreSound(tid, a, Told(tid, AsU32(a.now)));
      case Delay(n) => RequestedSound(tid, a, n);
      case DelayUntil(tick) =>
        var n := AsI32(tick - AsU32(a.now));
        if n >= 0 {
          RequestedSound(tid, a, n);
        } else {
          OneMoreSound(tid, a, Refused(tid));
        }
      case Notify => TickedSound(a, b);
      case Unknown =>
    }
  }

  lemma {:induction false} LeadsSound(a: Moment, rs: seq<Request>, b: Moment)
    requires Sound(a) && Leads(a, rs, b)
    ensures Sound(b) && a.log <= b.log && b.now == a.now + Notifies(rs)
    decreases |rs|
  {
    hide Sound, Served;
    if rs == [] {
    } else {
      var m: Moment :| Served(rs[0].tid, rs[0].message, a, m) && Leads(m, rs[1..], b);
      ServedSound(rs[0].tid, rs[0].message, a, m);
      LeadsSound(m, rs[1..], b);
    }
  }

  /** What a client that asks for a delay of `n` at `a.now` sees, whatever is sent to the server
      after that: nothing as long as fewer than `n` ticks have passed; and once they have, its
      next event is the answer, given at the time `a.now + n` and reading so. */
  lemma {:induction false} DelayIsKept(
      tid: int, message: Message, n: nat, a: Moment, b: Moment, rs: seq<Request>, c: Moment) returns (k: nat)
    requires Sound(a) && WaitAfter(a.log, tid).NotWaiting? && Served(tid, message, a, b) && Leads(b, rs, c)
    requires message == Delay(n) || (message.DelayUntil? && n == AsI32(message.tick - AsU32(a.now)))
    ensures c.now == a.now + Notifies(rs)
    ensures |a.log| < k <= |c.log| && forall m | |a.log| < m < k :: c.log[m].tid != tid
    ensures if Notifies(rs) >= n then k < |c.log| && c.log[k] == Answered(tid, a.now + n, AsU32(a.now + n))
            else k == |c.log|
  {
    hide Leads, WaitAfter, AsU32, AsI32;
    ServedSound(tid, message, a, b);
    LeadsSound(b, rs, c);
    assert b.log[|a.log|] == Asked(tid, a.now + n);
    k := FateOf(c.log, tid, |a.log|);
    assert k < |c.log| ==> c.log[k] in c.log;
  }
}
