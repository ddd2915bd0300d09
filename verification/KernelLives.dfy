/** What becomes of a task: one that waits for an event runs again when that event comes and
    not before, one that exits is gone until its slot is used anew, and whoever asks for
    nothing keeps its turn. Said of what is served, so over turns and whole runs. */
module KernelLives {
  import opened Containers
  import opened MachineInts
  import opened Wrappers
  import opened KernelSteps
  import opened KernelSafety
  import opened KernelCalls
  import opened KernelRuns

  // ----- Whom a request leaves alone -----

  ghost predicate Kept(s: State, s': State, i: nat)
    requires Sized(s) && Sized(s') && i < MAX_NUM_TASKS
  {
    s'.tasks[i] == s.tasks[i] && s'.reuse[i] == s.reuse[i] && s'.home[i] == s.home[i]
  }

  /** The request is of no concern to the task in slot `i`, which is ready, or free and not
      the next to be used, or waits for another event. */
  ghost predicate OutOfReach(s: State, request: Request, i: nat)
    requires Sized(s) && i < MAX_NUM_TASKS
  {
    && i != s.current && s.home[i] != NONE && !IsMailbox(s.home[i])
    && (request.CreateRequest? && s.home[i] == FREE_LIST ==> s.queues[FREE_LIST] != [] && s.queues[FREE_LIST][0] != i)
    && (request.Interrupt? && request.wakes.Some? ==> s.home[i] != EVENT + request.wakes.value.event)
  }

  lemma {:induction false} CreateLeaves(s: State, i: nat)
    requires CanCreate(s) && s.tasks[s.current].tid == s.current + STARTING_TASK_TID && Sized(Create(s))
    requires i < MAX_NUM_TASKS && i != s.current && i != s.queues[FREE_LIST][0]
    ensures Kept(s, Create(s), i)
  {
    hide Inv, TaskOk, AsU32, SlotOf;
  }

  lemma {:induction false} SendLeaves(s: State, target: nat, i: nat)
    requires CanSend(s, target) && Sized(Send(s)) && i < MAX_NUM_TASKS && i != s.current && s.home[i] != NONE
    ensures Kept(s, Send(s), i)
  {
    SendTargetHome(s, target);
    hide Inv, TaskOk, StoredTid, Copied, AsU32, AsU64, AsI64, SlotOf;
  }

  lemma {:induction false} ReceiveLeaves(s: State, i: nat)
    requires Busy(s) && s.queues[MAILBOX + s.current] != [] && s.queues[MAILBOX + s.current][0] < MAX_NUM_TASKS
    requires Sized(Receive(s)) && i < MAX_NUM_TASKS && i != s.current && s.home[i] != MAILBOX + s.current
    ensures Kept(s, Receive(s), i)
  {
    BoxHead(s);
    hide Inv, TaskOk, StoredTid, Copied, AsU64, AsI64;
  }

  lemma {:induction false} ReplyLeaves(s: State, sender: nat, i: nat)
    requires CanReply(s, sender) && Sized(Reply(s)) && i < MAX_NUM_TASKS && i != s.current && s.home[i] != NONE
    ensures Kept(s, Reply(s), i)
  {
    ReplyUnfolds(s, sender);
    hide Reply, Inv, TaskOk, Copied, SlotOf, ReplyLength, AsI64;
  }

  lemma {:induction false} WakeOneLeaves(s: State, q: nat, v: int, i: nat)
    requires CanWakeOne(s, q) && Sized(s) && 0 <= s.tasks[s.queues[q][0]].priority < NUM_PRIORITIES
    requires i < MAX_NUM_TASKS && s.home[i] != q
    ensures Sized(WakeOne(s, q, v)) && Kept(s, WakeOne(s, q, v), i)
  {
    hide Inv, TaskOk;
  }

  lemma {:induction false} WakeAllLeaves(s: State, event: nat, v: int, i: nat)
    requires Inv(s) && CanWake(s, event) && i < MAX_NUM_TASKS && s.home[i] != EVENT + event
    ensures Sized(WakeAll(s, event, v)) && Kept(s, WakeAll(s, event, v), i)
    decreases |s.queues[EVENT + event]|
  {
    assert Sized(s);
    WakeUnfolds(s, event, v);
    hide Inv, TaskOk, WakeOne, WakeAll;
    if s.queues[EVENT + event] == [] {
    } else {
      var s' := WakeOne(s, EVENT + event, v);
      WakeOneKeeps(s, EVENT + event, v);
      WakeOneGrows(s, EVENT + event, v);
      WakeOneLeaves(s, EVENT + event, v, i);
      WakeAllLeaves(s', event, v, i);
    }
  }

  lemma {:induction false} ResumeLeaves(s: State, v: int, i: nat)
    requires Busy(s) && i < MAX_NUM_TASKS && i != s.current
    ensures Sized(Resume(s, v)) && Kept(s, Resume(s, v), i)
  {
    ResumeKeeps(s, v);
    hide Inv, TaskOk;
  }

  lemma {:induction false} YieldLeaves(s: State, i: nat)
    requires Busy(s) && i < MAX_NUM_TASKS && i != s.current
    ensures Sized(Yield(s)) && Kept(s, Yield(s), i)
  {
    YieldKeeps(s);
    hide Inv, TaskOk;
  }

  lemma {:induction false} ExitLeaves(s: State, i: nat)
    requires Busy(s) && i < MAX_NUM_TASKS && i != s.current
    ensures Sized(Exit(s)) && Kept(s, Exit(s), i)
  {
    ExitKeeps(s);
    hide Inv, TaskOk;
  }

  lemma {:induction false} AwaitEventLeaves(s: State, i: nat)
    requires Busy(s) && i < MAX_NUM_TASKS && i != s.current
    ensures Sized(AwaitEvent(s)) && Kept(s, AwaitEvent(s), i)
  {
    AwaitEventKeeps(s);
    if AsU32(s.tasks[s.current].regs[0]) >= MAX_NUM_EVENTS {
      ResumeLeaves(s, -1, i);
    }
    hide Inv, TaskOk, AsU32, Resume;
  }

  lemma {:induction false} CreateRequestLeaves(s: State, i: nat)
    requires Busy(s) && i < MAX_NUM_TASKS && OutOfReach(s, CreateRequest, i)
    ensures Kept(s, Serve(s, CreateRequest), i)
  {
    ServesCreate(s);
    CreateKeeps(s);
    if AsU32(s.tasks[s.current].regs[0]) >= NUM_PRIORITIES {
      ResumeLeaves(s, -1, i);
    } else if s.queues[FREE_LIST] == [] {
      ResumeLeaves(s, -2, i);
    } else {
      FreeHead(s);
      CreateLeaves(s, i);
    }
    hide Inv, TaskOk, Serve, Resume, Kept, AsU32;
  }

  lemma {:induction false} SendRequestLeaves(s: State, i: nat)
    requires Busy(s) && i < MAX_NUM_TASKS && OutOfReach(s, SendRequest, i)
    ensures Kept(s, Serve(s, SendRequest), i)
  {
    var r0 := s.tasks[s.current].regs[0];
    ServesSend(s);
    SendKeeps(s);
    if AsU32(r0) == s.tasks[s.current].tid {
      ResumeLeaves(s, -2, i);
    } else if SlotOf(r0) >= MAX_NUM_TASKS || s.reuse[SlotOf(r0)].free {
      ResumeLeaves(s, -1, i);
    } else {
      SlotFinds(s, r0);
      SendGoesTo(s);
      SendLeaves(s, SlotOf(r0), i);
    }
    hide Inv, TaskOk, Serve, Resume, Kept, AsU32, SlotOf, CanSend, StoredTid, Copied;
  }

  lemma {:induction false} SendGoesTo(s: State)
    requires Busy(s)
    requires var r0 := s.tasks[s.current].regs[0];
      AsU32(r0) != s.tasks[s.current].tid && SlotOf(r0) < MAX_NUM_TASKS && !s.reuse[SlotOf(r0)].free
    ensures CanSend(s, SlotOf(s.tasks[s.current].regs[0]))
  {
    var r0 := s.tasks[s.current].regs[0];
    PrioritiesOk(s);
    SlotIsTid(r0);
    assert TaskOk(s, SlotOf(r0));
    hide AtHome, ExitsOk, AsU32, SlotOf, MessagesOk, ParentOk;
  }

  lemma {:induction false} ReceiveRequestLeaves(s: State, i: nat)
    requires Busy(s) && i < MAX_NUM_TASKS && OutOfReach(s, ReceiveRequest, i)
    ensures Kept(s, Serve(s, ReceiveRequest), i)
  {
    ServesReceive(s);
    ReceiveKeeps(s);
    if s.queues[MAILBOX + s.current] != [] {
      ReceiveLeaves(s, i);
    }
    hide Inv, TaskOk, Serve, SendMessage, Yield;
  }

  lemma {:induction false} ReplyRequestLeaves(s: State, i: nat)
    requires Busy(s) && i < MAX_NUM_TASKS && OutOfReach(s, ReplyRequest, i)
    ensures Kept(s, Serve(s, ReplyRequest), i)
  {
    var sender := SlotOf(s.tasks[s.current].regs[0]);
    ServesReply(s);
    ReplyKeeps(s);
    if sender >= MAX_NUM_TASKS || s.reuse[sender].free {
      ResumeLeaves(s, -1, i);
    } else if s.tasks[sender].state != ReplyWait {
      ResumeLeaves(s, -2, i);
    } else {
      SendTargetHome(s, sender);
      ReplyLeaves(s, sender, i);
    }
    hide Inv, TaskOk, Serve, Resume, Kept, SlotOf, ReplyMessage;
  }

  lemma {:induction false} InterruptLeaves(s: State, wake: Wake, i: nat)
    requires Busy(s) && wake.event < MAX_NUM_EVENTS && i < MAX_NUM_TASKS && i != s.current
    requires s.home[i] != EVENT + wake.event
    ensures Kept(s, Serve(s, Interrupt(Some(wake))), i)
  {
    WakeAllKeeps(s, wake.event, wake.result);
    WakeAllLeaves(s, wake.event, wake.result, i);
    var woken := WakeAll(s, wake.event, wake.result);
    BusyAgain(s, woken);
    YieldLeaves(woken, i);
    assert Serve(s, Interrupt(Some(wake))) == Yield(woken);
    hide Inv, TaskOk, WakeAll, Serve, Yield;
  }

  /** A task that is ready, dead, or waits for an event is not touched by what others ask for,
      unless it is the slot a new task is given or the event it waits for comes. */
  lemma {:induction false} ServeLeaves(s: State, request: Request, i: nat)
    requires Busy(s) && i < MAX_NUM_TASKS && OutOfReach(s, request, i)
    requires request.Interrupt? && request.wakes.Some? ==> request.wakes.value.event < MAX_NUM_EVENTS
    ensures Kept(s, Serve(s, request), i)
  {
    hide Inv, TaskOk, Create, Exit, Send, Receive, Reply, AwaitEvent, Yield, Resume, WakeAll, ParentGone, Kept;
    match request
    case CreateRequest => CreateRequestLeaves(s, i);
    case MyTidRequest => ResumeLeaves(s, s.tasks[s.current].tid, i);
    case MyParentTidRequest =>
      MyParentTidKeeps(s);
      var parent := s.tasks[s.current].parentTid;
      ResumeLeaves(s, if ParentGone(s, s.current) then parent + EXITED_PARENT_MASK else parent, i);
    case ExitRequest => ExitLeaves(s, i);
    case SendRequest => SendRequestLeaves(s, i);
    case ReceiveRequest => ReceiveRequestLeaves(s, i);
    case ReplyRequest => ReplyRequestLeaves(s, i);
    case AwaitEventRequest => AwaitEventLeaves(s, i);
    case OtherRequest(None) => YieldLeaves(s, i);
    case OtherRequest(Some(v)) => ResumeLeaves(s, v, i);
    case Interrupt(None) => YieldLeaves(s, i);
    case Interrupt(Some(wake)) => InterruptLeaves(s, wake, i);
  }

  // ----- What the caller gets -----

  /** Whoever asks for its id gets it: its slot, counted from the first task's. */
  lemma {:induction false} MyTidReturns(s: State)
    requires Busy(s)
    ensures Resumed(s, Serve(s, MyTidRequest), s.current + STARTING_TASK_TID)
  {
    ResumeReturns(s, s.tasks[s.current].tid);
    assert s.tasks[s.current].tid == s.current + STARTING_TASK_TID;
    hide Inv, TaskOk, Resume;
  }

  lemma {:induction false} YieldReturns(s: State)
    requires Busy(s)
    ensures Sized(Yield(s)) && Resumed(s, Yield(s), s.tasks[s.current].regs[0])
  {
    var t := s.tasks[s.current];
    assert t.regs[0 := t.regs[0]] == t.regs;
    hide Inv, TaskOk;
  }

  /** A call that only has a result returns it; one without leaves the registers alone. */
  lemma {:induction false} OtherReturns(s: State, result: Option<int>)
    requires Busy(s)
    ensures var v := if result.Some? then result.value else s.tasks[s.current].regs[0];
      Resumed(s, Serve(s, OtherRequest(result)), v)
    ensures Resumed(s, Serve(s, Interrupt(None)), s.tasks[s.current].regs[0])
  {
    YieldReturns(s);
    if result.Some? {
      ResumeReturns(s, result.value);
    }
    hide Inv, TaskOk, Resume, Yield, Resumed;
  }

  /** An interrupted task goes behind its level, after the tasks the interrupt wakes. */
  lemma {:induction false} InterruptOrder(s: State, wake: Wake, p: nat)
    requires Busy(s) && wake.event < MAX_NUM_EVENTS && p < NUM_PRIORITIES
    ensures CanWake(s, wake.event)
    ensures var c, s' := s.current, Serve(s, Interrupt(Some(wake)));
      && s'.tasks[c] == s.tasks[c].(state := Ready) && s'.hist == s.hist
      && Behind(s, s', READY + p,
                OfPriority(s, s.queues[EVENT + wake.event], p) + if s.tasks[c].priority == p then [c] else [])
  {
    WakeOrder(s, wake.event, wake.result, p);
    WakeResults(s, wake.event, wake.result, s.current);
    WakeAllKeeps(s, wake.event, wake.result);
    var woken := WakeAll(s, wake.event, wake.result);
    WakeAllGrows(s, wake.event, wake.result);
    BusyAgain(s, woken);
    CurrentNotOnEvent(s, wake.event);
    assert Serve(s, Interrupt(Some(wake))) == Yield(woken);
    hide Serve, WakeAll, Inv, TaskOk, Behind, HeldAt, Yield;
    YieldBehind(woken, p);
    BehindTrans(s, woken, Yield(woken), READY + p, OfPriority(s, s.queues[EVENT + wake.event], p),
                if s.tasks[s.current].priority == p then [s.current] else []);
  }

  lemma {:induction false} CurrentNotOnEvent(s: State, e: nat)
    requires Busy(s) && e < MAX_NUM_EVENTS
    ensures !HeldAt(s, s.current, OnEvent(e))
  {
  }

  lemma {:induction false} YieldBehind(s: State, p: nat)
    requires Busy(s) && p < NUM_PRIORITIES
    ensures Sized(Yield(s)) && Yield(s).hist == s.hist
    ensures Yield(s).tasks[s.current] == s.tasks[s.current].(state := Ready)
    ensures Behind(s, Yield(s), READY + p, if s.tasks[s.current].priority == p then [s.current] else [])
  {
    hide Inv, TaskOk;
  }

  /** Who finds its mailbox empty waits for a message, and nothing else changes. */
  lemma {:induction false} ReceiveWaits(s: State)
    requires Busy(s) && s.queues[MAILBOX + s.current] == []
    ensures var c, s' := s.current, Serve(s, ReceiveRequest);
      && HeldAt(s', c, Receiving) && s'.tasks == s.tasks[c := s.tasks[c].(state := ReceiveWait)]
      && s'.queues == s.queues && s'.mem == s.mem && s'.hist == s.hist && s'.current == NONE
  {
    ServesReceive(s);
    CurrentParent(s);
    hide Inv, TaskOk, Serve;
  }

  /** Otherwise the first of the mailbox leaves it and awaits the reply, and the caller is
      ready. What it has then is what `ReceiveDelivered` says. */
  lemma {:induction false} ReceiveTakes(s: State)
    requires Busy(s) && s.queues[MAILBOX + s.current] != []
    ensures s.queues[MAILBOX + s.current][0] < MAX_NUM_TASKS
    ensures var c, sender, s' := s.current, s.queues[MAILBOX + s.current][0], Serve(s, ReceiveRequest);
      && HeldAt(s', sender, AwaitingReply) && s'.queues[MAILBOX + c] == s.queues[MAILBOX + c][1..]
      && Behind(s, s', READY + s.tasks[c].priority, [c])
      && s'.hist.received == s.hist.received[c := s.hist.received[c] + [sender]]
  {
    hide Inv, TaskOk, Serve, Receive;
    ServesReceive(s);
    HeadSends(s);
    HeadTaken(s);
  }

  lemma {:induction false} HeadSends(s: State)
    requires Busy(s) && s.queues[MAILBOX + s.current] != []
    ensures var sender := s.queues[MAILBOX + s.current][0];
      sender < MAX_NUM_TASKS && sender != s.current && !s.reuse[sender].free
  {
    BoxHead(s);
  }

  lemma {:induction false} HeadTaken(s: State)
    requires Busy(s) && s.queues[MAILBOX + s.current] != [] && s.queues[MAILBOX + s.current][0] < MAX_NUM_TASKS
    requires s.queues[MAILBOX + s.current][0] != s.current
    ensures Sized(Receive(s))
    ensures var c, sender, s' := s.current, s.queues[MAILBOX + s.current][0], Receive(s);
      && s'.tasks[sender].state == ReplyWait && s'.reuse == s.reuse
      && s'.queues[MAILBOX + c] == s.queues[MAILBOX + c][1..] && Behind(s, s', READY + s.tasks[c].priority, [c])
      && s'.hist.received == s.hist.received[c := s.hist.received[c] + [sender]]
  {
    hide Inv, TaskOk, StoredTid, Copied, AsU64, AsI64;
  }

  // ----- Waiting for an event -----

  /** The caller is the last to wait for the very event it names, and nothing else changes;
      an event that does not exist is refused. */
  lemma {:induction false} AwaitEventWaits(s: State)
    requires Busy(s)
    ensures var c, e, s' := s.current, Calls(s), Serve(s, AwaitEventRequest);
      if e < MAX_NUM_EVENTS then
        && Behind(s, s', EVENT + e, [c]) && OnlyQueue(s, s', EVENT + e)
        && s'.tasks == s.tasks && HeldAt(s', c, OnEvent(e))
      else Resumed(s, s', -1)
  {
    if Calls(s) >= MAX_NUM_EVENTS {
      ResumeReturns(s, -1);
    }
    hide Inv, TaskOk, Resume, AsU32;
  }

  predicate Wakes(request: Request, e: nat) {
    request.Interrupt? && request.wakes.Some? && request.wakes.value.event == e
  }

  /** Who waits for event `e` is not touched by a turn that does not wake it. */
  lemma {:induction false} StaysOnEvent(s: State, input: Input, i: nat, e: nat)
    requires Idle(s) && Order(Levels(s)) != [] && ValidInput(input) && !Wakes(input.request, e)
    requires i < MAX_NUM_TASKS && HeldAt(s, i, OnEvent(e))
    ensures HeldAt(Turn(s, input), i, OnEvent(e)) && Turn(s, input).tasks[i] == s.tasks[i]
  {
    EnteredOnEvent(s, input, i, e);
    hide Turn, Entered, Serve, Idle, Busy, TaskOk, Order, Levels;
    ServeLeaves(Entered(s, input), input.request, i);
    HomeIsHeld(Turn(s, input), i, e);
  }

  lemma {:induction false} HomeIsHeld(s: State, i: nat, e: nat)
    requires Idle(s) && i < MAX_NUM_TASKS && e < MAX_NUM_EVENTS
    ensures HeldAt(s, i, OnEvent(e)) <==> s.home[i] == EVENT + e
  {
  }

  lemma {:induction false} EnteredOnEvent(s: State, input: Input, i: nat, e: nat)
    requires Idle(s) && Order(Levels(s)) != [] && ValidInput(input)
    requires i < MAX_NUM_TASKS && HeldAt(s, i, OnEvent(e))
    ensures var user := Entered(s, input);
      && user.home[i] == EVENT + e && HeldAt(user, i, OnEvent(e))
      && i != user.current && user.tasks[i] == s.tasks[i] && Turn(s, input) == Serve(user, input.request)
  {
    EnteredEffect(s, input);
    HomeIsHeld(s, i, e);
    hide Turn, Serve, TaskOk, Order, Levels, Entered;
  }

  ghost predicate NoWake(inputs: seq<Input>, e: nat) {
    forall k | 0 <= k < |inputs| :: !Wakes(inputs[k].request, e)
  }

  /** So it is over any number of turns. */
  lemma {:induction false} WaitsOnEvent(s: State, inputs: seq<Input>, i: nat, e: nat)
    requires Idle(s) && ValidInputs(inputs) && NoWake(inputs, e)
    requires i < MAX_NUM_TASKS && HeldAt(s, i, OnEvent(e))
    ensures HeldAt(Run(s, inputs), i, OnEvent(e)) && Run(s, inputs).tasks[i] == s.tasks[i]
    decreases |inputs|
  {
    assert Sized(s);
    hide Turn, Inv, TaskOk, Order, Levels, HeldAt, ValidInput, Wakes;
    if inputs == [] || Order(Levels(s)) == [] {
    } else {
      StaysOnEvent(s, inputs[0], i, e);
      WaitsOnEvent(Turn(s, inputs[0]), inputs[1..], i, e);
    }
  }

  ghost predicate IsReady(s: State, i: nat)
    requires Sized(s) && i < MAX_NUM_TASKS
  {
    0 <= s.tasks[i].priority < NUM_PRIORITIES && HeldAt(s, i, OnReady(s.tasks[i].priority))
  }

  /** When its event comes, it is ready and has the event's value. */
  lemma {:induction false} WokenTurn(s: State, input: Input, i: nat, wake: Wake)
    requires Idle(s) && Order(Levels(s)) != [] && ValidInput(input) && input.request == Interrupt(Some(wake))
    requires i < MAX_NUM_TASKS && HeldAt(s, i, OnEvent(wake.event))
    ensures IsReady(Turn(s, input), i)
    ensures Turn(s, input).tasks[i] == s.tasks[i].(state := Ready, regs := s.tasks[i].regs[0 := wake.result])
  {
    EnteredOnEvent(s, input, i, wake.event);
    hide Turn, Entered, Serve, Idle, TaskOk, Order, Levels;
    WokenServed(Entered(s, input), wake, i);
  }

  lemma {:induction false} WokenServed(s: State, wake: Wake, i: nat)
    requires Busy(s) && wake.event < MAX_NUM_EVENTS && i < MAX_NUM_TASKS && i != s.current
    requires HeldAt(s, i, OnEvent(wake.event))
    ensures var s' := Serve(s, Interrupt(Some(wake)));
      && IsReady(s', i)
      && s'.tasks[i] == s.tasks[i].(state := Ready, regs := s.tasks[i].regs[0 := wake.result])
  {
    WakeResults(s, wake.event, wake.result, i);
    WakeAllKeeps(s, wake.event, wake.result);
    WakeAllGrows(s, wake.event, wake.result);
    var woken, s' := WakeAll(s, wake.event, wake.result), Serve(s, Interrupt(Some(wake)));
    BusyAgain(s, woken);
    YieldLeaves(woken, i);
    assert s' == Yield(woken);
    NotFreeOnEvent(s, i, wake.event);
    hide Serve, Yield, WakeAll, HeldAt, Busy, TaskOk, AtHome, ExitsOk, IsReady;
    ReadyIsHeld(s', i);
  }

  lemma {:induction false} NotFreeOnEvent(s: State, i: nat, e: nat)
    requires Inv(s) && i < MAX_NUM_TASKS && HeldAt(s, i, OnEvent(e))
    ensures !s.reuse[i].free
  {
    assert TaskOk(s, i);
  }

  lemma {:induction false} ReadyIsHeld(s: State, i: nat)
    requires Idle(s) && i < MAX_NUM_TASKS && s.tasks[i].state == Ready && !s.reuse[i].free
    ensures IsReady(s, i)
  {
    assert TaskOk(s, i);
  }

  /** From the call to the event: a task that asks for an event waits while others run,
      whatever other events come, and when its event comes it is ready and has the value. */
  lemma {:induction false} AwaitedAndWoken(s: State, ask: Input, inputs: seq<Input>, last: Input, wake: Wake)
    requires Idle(s) && Order(Levels(s)) != [] && ValidInput(ask) && ask.request == AwaitEventRequest
    requires ValidInputs(inputs) && NoWake(inputs, wake.event)
    requires ValidInput(last) && last.request == Interrupt(Some(wake)) && AsU32(ask.regs[0]) == wake.event
    ensures NextTask(s) < MAX_NUM_TASKS
    ensures var i, waiting := NextTask(s), Run(Turn(s, ask), inputs);
      && HeldAt(Turn(s, ask), i, OnEvent(wake.event)) && HeldAt(waiting, i, OnEvent(wake.event))
      && (Order(Levels(waiting)) != [] ==>
            && IsReady(Turn(waiting, last), i)
            && Turn(waiting, last).tasks[i].regs == ask.regs[0 := wake.result])
  {
    var i := NextTask(s);
    EnteredEffect(s, ask);
    AwaitEventWaits(Entered(s, ask));
    hide Turn, Entered, Serve, Idle, Busy, Run, TaskOk, Order, Levels, HeldAt, ValidInputs, NoWake, AsU32, IsReady;
    WaitsOnEvent(Turn(s, ask), inputs, i, wake.event);
    if Order(Levels(Run(Turn(s, ask), inputs))) != [] {
      WokenTurn(Run(Turn(s, ask), inputs), last, i, wake);
    }
  }

  // ----- Exiting -----

  /** Who exits has had this life: its slot is the last of the free list, nothing else has
      changed, and what is in its mailbox stays there. */
  lemma {:induction false} ExitEnds(s: State)
    requires Busy(s)
    ensures var c, s' := s.current, Serve(s, ExitRequest);
      && s'.hist == s.hist.(exited := s.hist.exited + {Me(s, c)}) && Me(s, c) !in s.hist.exited
      && s'.reuse == s.reuse[c := s.reuse[c].(free := true)] && !s.reuse[c].free
      && HeldAt(s', c, OnFreeList) && Behind(s, s', FREE_LIST, [c]) && s'.mem == s.mem && s'.current == NONE
      && (forall q | 0 <= q < NUM_QUEUES && q != FREE_LIST :: s'.queues[q] == s.queues[q])
      && (forall i | 0 <= i < MAX_NUM_TASKS && i != c :: s'.tasks[i] == s.tasks[i])
  {
    CurrentParent(s);
    assert Me(s, s.current) in s.hist.exited <==> Over(s, Me(s, s.current));
    hide AtHome, TaskOk;
  }

  /** No turn of the run dispatches slot `i`. */
  ghost predicate NeverRuns(s: State, inputs: seq<Input>, i: nat)
    requires Idle(s) && ValidInputs(inputs)
    decreases |inputs|
  {
    inputs != [] && Order(Levels(s)) != [] ==> NextTask(s) != i && NeverRuns(Turn(s, inputs[0]), inputs[1..], i)
  }

  /** A turn that does not give a dead slot a new life neither runs it nor revives it. */
  lemma {:induction false} StaysDead(s: State, input: Input, i: nat)
    requires Idle(s) && Order(Levels(s)) != [] && ValidInput(input) && i < MAX_NUM_TASKS && s.reuse[i].free
    requires Turn(s, input).reuse[i].gen == s.reuse[i].gen
    ensures NextTask(s) != i && Turn(s, input).reuse[i].free
  {
    EnteredEffect(s, input);
    TurnLater(s, input);
    FreeIsHome(s, i);
    FreeByHistory(s, Turn(s, input), i);
    hide Turn, Entered, Serve, Inv, TaskOk, Order, Levels;
  }

  lemma {:induction false} FreeIsHome(s: State, i: nat)
    requires Inv(s) && i < MAX_NUM_TASKS
    ensures s.reuse[i].free <==> s.home[i] == FREE_LIST
  {
    assert TaskOk(s, i);
  }

  /** What has exited stays so. */
  lemma {:induction false} FreeByHistory(s: State, s': State, i: nat)
    requires Inv(s) && Inv(s') && s.hist.exited <= s'.hist.exited && i < MAX_NUM_TASKS
    requires s.reuse[i].free && s'.reuse[i].gen == s.reuse[i].gen
    ensures s'.reuse[i].free
  {
    assert TaskOk(s', i);
    assert Me(s, i) in s.hist.exited <==> Over(s, Me(s, i));
    assert Me(s, i) in s'.hist.exited <==> Over(s', Me(s, i));
    hide AtHome, SlotOk, MessagesOk;
  }

  /** Nor does any run: a dead slot is not dispatched until it has been given to a new task. */
  lemma {:induction false} GoneUntilReused(s: State, inputs: seq<Input>, i: nat)
    requires Idle(s) && ValidInputs(inputs) && i < MAX_NUM_TASKS && s.reuse[i].free
    requires Run(s, inputs).reuse[i].gen == s.reuse[i].gen
    ensures NeverRuns(s, inputs, i) && Run(s, inputs).reuse[i].free
    decreases |inputs|
  {
    assert Sized(s);
    hide Turn, Inv, TaskOk, Order, Levels, ValidInput, NextTask;
    if inputs == [] || Order(Levels(s)) == [] {
    } else {
      TurnLater(s, inputs[0]);
      SafeOnEveryRun(Turn(s, inputs[0]), inputs[1..]);
      GensMeet(s, Turn(s, inputs[0]), Run(Turn(s, inputs[0]), inputs[1..]), i);
      StaysDead(s, inputs[0], i);
      GoneUntilReused(Turn(s, inputs[0]), inputs[1..], i);
    }
  }

  lemma {:induction false} GensMeet(a: State, b: State, c: State, i: nat)
    requires Later(a, b) && Later(b, c) && i < MAX_NUM_TASKS && a.reuse[i].gen == c.reuse[i].gen
    ensures b.reuse[i].gen == a.reuse[i].gen
  {
  }

  /** Whatever has happened since, a task whose creator has exited is told so. */
  lemma {:induction false} OrphanIsTold(s: State, inputs: seq<Input>, ask: Input, parent: Incarnation)
    requires Idle(s) && ValidInputs(inputs) && parent in s.hist.exited
    requires Order(Levels(Run(s, inputs))) != [] && ValidInput(ask) && ask.request == MyParentTidRequest
    requires var s', x := Run(s, inputs), NextTask(Run(s, inputs));
      && x < MAX_NUM_TASKS && s'.tasks[x].parentTid != KERNEL_TID
      && Me(s', x) in s'.hist.creator && s'.hist.creator[Me(s', x)] == parent
    ensures var s', x := Run(s, inputs), NextTask(Run(s, inputs));
      Turn(s', ask).tasks[x].regs[0] == s'.tasks[x].parentTid + EXITED_PARENT_MASK
  {
    SafeOnEveryRun(s, inputs);
    EnteredEffect(Run(s, inputs), ask);
    hide Run, Turn, Entered, Serve, Inv, TaskOk, Order, Levels;
    ParentTruth(Entered(Run(s, inputs), ask));
  }

  /** After a task has exited, it is not dispatched again until its slot has a new life, and
      its children are told from then on. */
  lemma {:induction false} ExitIsForGood(s: State, exit: Input, inputs: seq<Input>)
    requires Idle(s) && Order(Levels(s)) != [] && ValidInput(exit) && exit.request == ExitRequest
    requires ValidInputs(inputs)
    ensures var c, gone := NextTask(s), Turn(s, exit);
      && c < MAX_NUM_TASKS && gone.reuse[c].free && HeldAt(gone, c, OnFreeList)
      && Me(s, c) in Run(gone, inputs).hist.exited
      && (Run(gone, inputs).reuse[c].gen == s.reuse[c].gen ==> NeverRuns(gone, inputs, c))
  {
    EnteredEffect(s, exit);
    ExitEnds(Entered(s, exit));
    SafeOnEveryRun(Turn(s, exit), inputs);
    hide Run, Turn, Entered, Serve, Inv, TaskOk, Order, Levels, HeldAt, NeverRuns;
    if Run(Turn(s, exit), inputs).reuse[NextTask(s)].gen == s.reuse[NextTask(s)].gen {
      GoneUntilReused(Turn(s, exit), inputs, NextTask(s));
    }
  }
}
