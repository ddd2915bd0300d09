/** What every step of the kernel keeps, and what follows for whole runs. */
module KernelSafety {
  import opened Containers
  import opened MachineInts
  import opened Sequences
  import opened Wrappers
  import opened KernelSteps

  predicate IsReadyQueue(q: int) { READY <= q < MAILBOX }
  predicate IsMailbox(q: int) { MAILBOX <= q < EVENT }
  predicate IsEventQueue(q: int) { EVENT <= q < NUM_QUEUES }

  /** Where a slot is says what its flag and its tag are. Tasks waiting for an event keep the
      tag they had while running. */
  ghost predicate SlotOk(s: State, i: nat)
    requires Sized(s) && i < MAX_NUM_TASKS
  {
    var t, w := s.tasks[i], s.home[i];
    && NONE <= w < NUM_QUEUES
    && (w == FREE_LIST <==> s.reuse[i].free)
    && (i == s.current ==> w == NONE)
    && (w != FREE_LIST ==> t.tid == i + STARTING_TASK_TID && 0 <= t.priority < NUM_PRIORITIES)
    && (IsReadyQueue(w) ==> t.state == Ready && w == READY + t.priority)
    && (IsMailbox(w) ==> t.state == SendWait && w == MAILBOX + SlotOf(t.regs[0]) && w != MAILBOX + i)
    && (IsEventQueue(w) ==> t.state == Active)
    && (w == NONE ==> if i == s.current then t.state == Active
                      else t.state == ReceiveWait || t.state == ReplyWait)
    && (w == NONE && t.state == ReceiveWait ==> s.queues[MAILBOX + i] == [])
  }

  /** Sends to a slot are received in order, the rest being in its mailbox; and a task has
      one reply to come exactly while it waits for one. */
  ghost predicate MessagesOk(s: State, i: nat)
    requires Sized(s) && i < MAX_NUM_TASKS
  {
    && s.hist.sent[i] == s.hist.received[i] + s.queues[MAILBOX + i]
    && s.hist.sends[i] == s.hist.replies[i] + (if AwaitsReply(s, i) then 1 else 0)
  }

  /** The task sent a message and has not been answered. */
  ghost predicate AwaitsReply(s: State, i: nat)
    requires Sized(s) && i < MAX_NUM_TASKS
  {
    IsMailbox(s.home[i]) || (s.home[i] == NONE && s.tasks[i].state == ReplyWait)
  }

  ghost predicate Lived(s: State, inc: Incarnation)
    requires Sized(s)
  {
    inc.slot < MAX_NUM_TASKS && 1 <= inc.gen <= s.reuse[inc.slot].gen
  }

  ghost predicate Over(s: State, inc: Incarnation)
    requires Sized(s)
  {
    Lived(s, inc) && (inc.gen < s.reuse[inc.slot].gen || s.reuse[inc.slot].free)
  }

  ghost predicate ExitsOk(s: State)
    requires Sized(s)
  {
    forall inc :: inc in s.hist.exited <==> Over(s, inc)
  }

  ghost function Me(s: State, i: nat): Incarnation
    requires Sized(s) && i < MAX_NUM_TASKS
  {
    Incarnation(i, s.reuse[i].gen)
  }

  /** The parent recorded for a task is the very incarnation that created it. */
  ghost predicate ParentOk(s: State, i: nat)
    requires Sized(s) && i < MAX_NUM_TASKS
  {
    !s.reuse[i].free ==>
      && Lived(s, Me(s, i)) && ParentKnown(s, i)
      && (s.tasks[i].parentTid != KERNEL_TID ==>
            var parent := Incarnation(s.tasks[i].parentTid - STARTING_TASK_TID, s.reuse[i].parentGen);
            Me(s, i) in s.hist.creator && s.hist.creator[Me(s, i)] == parent && Lived(s, parent))
  }

  ghost predicate Inv(s: State) {
    && Sized(s) && AtHome(s.queues, s.home) && ExitsOk(s)
    && forall i: nat | i < MAX_NUM_TASKS :: TaskOk(s, i)
  }

  ghost predicate TaskOk(s: State, i: nat)
    requires Sized(s) && i < MAX_NUM_TASKS
  {
    SlotOk(s, i) && MessagesOk(s, i) && ParentOk(s, i)
  }

  ghost predicate Busy(s: State) {
    Inv(s) && Running(s) && TaskOk(s, s.current)
  }

  ghost predicate Idle(s: State) {
    Inv(s) && s.current == NONE
  }

  /** Nothing that concerns slot `i` differs between the two states. */
  ghost predicate SameFor(s: State, s': State, i: nat)
    requires Sized(s) && Sized(s') && i < MAX_NUM_TASKS
  {
    && s'.tasks[i] == s.tasks[i] && s'.reuse[i] == s.reuse[i] && s'.home[i] == s.home[i]
    && s'.queues[MAILBOX + i] == s.queues[MAILBOX + i]
    && (s'.current == i <==> s.current == i)
    && s'.hist.sent[i] == s.hist.sent[i] && s'.hist.received[i] == s.hist.received[i]
    && s'.hist.sends[i] == s.hist.sends[i] && s'.hist.replies[i] == s.hist.replies[i]
    && (Me(s, i) in s.hist.creator ==>
          Me(s, i) in s'.hist.creator && s'.hist.creator[Me(s, i)] == s.hist.creator[Me(s, i)])
  }

  ghost predicate GensGrow(s: State, s': State)
    requires Sized(s) && Sized(s')
  {
    forall i | 0 <= i < MAX_NUM_TASKS :: s.reuse[i].gen <= s'.reuse[i].gen
  }

  lemma {:induction false} Untouched(s: State, s': State, i: nat)
    requires Sized(s) && Sized(s') && i < MAX_NUM_TASKS
    requires TaskOk(s, i) && SameFor(s, s', i) && GensGrow(s, s')
    ensures TaskOk(s', i)
  {
  }

  lemma {:induction false} UntouchedBut(s: State, s': State, a: nat, b: nat)
    requires Inv(s) && Sized(s') && a < MAX_NUM_TASKS && b < MAX_NUM_TASKS
    requires GensGrow(s, s')
    requires forall i: nat | i < MAX_NUM_TASKS && i != a && i != b :: SameFor(s, s', i)
    requires TaskOk(s', a) && TaskOk(s', b)
    ensures forall i: nat | i < MAX_NUM_TASKS :: TaskOk(s', i)
  {
    forall i: nat | i < MAX_NUM_TASKS
      ensures TaskOk(s', i)
    {
      assert TaskOk(s, i);
      if i != a && i != b {
        assert SameFor(s, s', i);
        Untouched(s, s', i);
      }
    }
  }

  lemma {:induction false} ResumeKeeps(s: State, v: int)
    requires Busy(s)
    ensures Idle(Resume(s, v))
  {
    var c, s' := s.current, Resume(s, v);
    PushAtHome(s.queues, s.home, READY + s.tasks[c].priority, c);
    assert TaskOk(s', c) && ExitsOk(s');
    hide TaskOk, AtHome, ExitsOk;
    UntouchedBut(s, s', c, c);
  }

  lemma {:induction false} YieldKeeps(s: State)
    requires Busy(s)
    ensures Idle(Yield(s))
  {
    var c, s' := s.current, Yield(s);
    PushAtHome(s.queues, s.home, READY + s.tasks[c].priority, c);
    assert TaskOk(s', c) && ExitsOk(s');
    hide TaskOk, AtHome, ExitsOk;
    UntouchedBut(s, s', c, c);
  }

  lemma {:induction false} ExitKeeps(s: State)
    requires Busy(s)
    ensures Idle(Exit(s))
  {
    var c, s' := s.current, Exit(s);
    PushAtHome(s.queues, s.home, FREE_LIST, c);
    assert TaskOk(s', c) && ExitsOk(s');
    hide TaskOk, AtHome, ExitsOk;
    UntouchedBut(s, s', c, c);
  }

  lemma {:induction false} AwaitEventKeeps(s: State)
    requires Busy(s)
    ensures Idle(AwaitEvent(s))
  {
    var c, s' := s.current, AwaitEvent(s);
    var event := AsU32(s.tasks[c].regs[0]);
    if event < MAX_NUM_EVENTS {
      PushAtHome(s.queues, s.home, EVENT + event, c);
      assert TaskOk(s', c) && ExitsOk(s');
      hide TaskOk, AtHome, ExitsOk;
      UntouchedBut(s, s', c, c);
    } else {
      ResumeKeeps(s, -1);
    }
  }

  lemma {:induction false} UserRunsKeeps(s: State, regs: seq<int>, mem: Memory)
    requires Busy(s) && |regs| == NUM_REGISTERS
    ensures Busy(UserRuns(s, regs, mem))
  {
    var c, s' := s.current, UserRuns(s, regs, mem);
    assert TaskOk(s', c) && ExitsOk(s');
    hide TaskOk, AtHome, ExitsOk;
    UntouchedBut(s, s', c, c);
  }

  lemma {:induction false} HighestExists(levels: seq<seq<nat>>) returns (p: nat)
    requires Order(levels) != []
    ensures HighestAt(levels, p) && Order(levels)[0] == levels[p][0]
  {
    var n := |levels| - 1;
    if levels[n] != [] {
      p := n;
    } else {
      p := HighestExists(levels[..n]);
    }
  }

  /** Something ready means something can be dispatched: it is the head of its queue. */
  lemma {:induction false} ReadyCanDispatch(s: State)
    requires Inv(s) && Order(Levels(s)) != []
    ensures CanDispatch(s)
  {
    var p := HighestExists(Levels(s));
    assert s.queues[READY + p] == Levels(s)[p];
    var x := s.queues[READY + p][0];
    assert s.home[x] == READY + p;
  }

  lemma {:induction false} DispatchKeeps(s: State)
    requires Idle(s) && CanDispatch(s)
    ensures Busy(Dispatch(s))
  {
    var x, s' := Order(Levels(s))[0], Dispatch(s);
    PopAtHome(s.queues, s.home, s.home[x]);
    assert TaskOk(s, x);
    assert TaskOk(s', x) && ExitsOk(s');
    hide TaskOk, AtHome, ExitsOk;
    UntouchedBut(s, s', x, x);
  }

  lemma {:induction false} SlotIsTid(tid: int)
    requires SlotOf(tid) < MAX_NUM_TASKS
    ensures AsU32(tid) == SlotOf(tid) + STARTING_TASK_TID
  {
  }

  lemma {:induction false} TidIsSlot(i: nat)
    requires i < MAX_NUM_TASKS
    ensures SlotOf(i + STARTING_TASK_TID) == i
  {
  }

  lemma {:induction false} PrioritiesOk(s: State)
    requires Inv(s)
    ensures Prioritised(s)
  {
    forall i | 0 <= i < MAX_NUM_TASKS && !s.reuse[i].free
      ensures 0 <= s.tasks[i].priority < NUM_PRIORITIES
    {
      assert TaskOk(s, i);
    }
  }

  // ----- Receive -----

  lemma {:induction false} BoxHead(s: State)
    requires Busy(s) && s.queues[MAILBOX + s.current] != []
    ensures var sender := s.queues[MAILBOX + s.current][0];
      && sender < MAX_NUM_TASKS && sender != s.current
      && s.home[sender] == MAILBOX + s.current && TaskOk(s, sender)
  {
  }

  lemma {:induction false} ReceiveQueues(s: State)
    requires Busy(s) && s.queues[MAILBOX + s.current] != []
    requires s.queues[MAILBOX + s.current][0] < MAX_NUM_TASKS
    ensures AtHome(Receive(s).queues, Receive(s).home)
  {
    var c := s.current;
    hide AtHome, TaskOk, ExitsOk, StoredTid, Copied;
    PopAtHome(s.queues, s.home, MAILBOX + c);
    var s1 := Dequeue(s, MAILBOX + c);
    assert s1.home[c] == NONE by { BoxHead(s); assert TaskOk(s, c); CurrentHome(s); }
    PushAtHome(s1.queues, s1.home, READY + s.tasks[c].priority, c);
  }

  lemma {:induction false} CurrentHome(s: State)
    requires Busy(s)
    ensures s.home[s.current] == NONE
  {
  }

  lemma {:induction false} ReceiveSlots(s: State, sender: nat)
    requires Busy(s) && s.queues[MAILBOX + s.current] != [] && sender == s.queues[MAILBOX + s.current][0]
    requires sender < MAX_NUM_TASKS && sender != s.current && s.home[sender] == MAILBOX + s.current && TaskOk(s, sender)
    ensures TaskOk(Receive(s), sender) && TaskOk(Receive(s), s.current)
  {
    hide AtHome, ExitsOk, StoredTid, Copied;
  }

  lemma {:induction false} ReceiveSame(s: State, sender: nat)
    requires Busy(s) && s.queues[MAILBOX + s.current] != [] && sender == s.queues[MAILBOX + s.current][0]
    requires sender < MAX_NUM_TASKS && s.home[sender] == MAILBOX + s.current
    ensures Sized(Receive(s)) && GensGrow(s, Receive(s)) && Receive(s).current == NONE && ExitsOk(Receive(s))
    ensures forall i: nat | i < MAX_NUM_TASKS && i != sender && i != s.current :: SameFor(s, Receive(s), i)
  {
    hide TaskOk, AtHome, StoredTid, Copied;
  }

  lemma {:induction false} ReceiveKeeps(s: State)
    requires Busy(s)
    ensures var box := s.queues[MAILBOX + s.current]; box != [] ==> box[0] < MAX_NUM_TASKS
    ensures Idle(Receive(s))
  {
    var c := s.current;
    if s.queues[MAILBOX + c] != [] {
      var sender := s.queues[MAILBOX + c][0];
      BoxHead(s);
      ReceiveQueues(s);
      ReceiveSlots(s, sender);
      ReceiveSame(s, sender);
      hide Receive, SameFor, GensGrow, TaskOk, AtHome, ExitsOk;
      UntouchedBut(s, Receive(s), sender, c);
    } else {
      var s' := Receive(s);
      assert TaskOk(s', c) && ExitsOk(s');
      hide TaskOk, AtHome, ExitsOk;
      UntouchedBut(s, s', c, c);
    }
  }

  // ----- Send -----

  ghost predicate CanSend(s: State, target: nat) {
    && Busy(s) && target == SlotOf(s.tasks[s.current].regs[0]) && target < MAX_NUM_TASKS && target != s.current
    && !s.reuse[target].free && TaskOk(s, target) && AsU32(s.tasks[s.current].regs[0]) != s.tasks[s.current].tid
    && Prioritised(s)
  }

  lemma {:induction false} SendSender(s: State, target: nat)
    requires CanSend(s, target)
    ensures TaskOk(Send(s), s.current)
  {
    hide AtHome, ExitsOk, StoredTid, Copied, AsU32, SlotOf;
  }

  lemma {:induction false} SendTargetMessages(s: State, target: nat)
    requires CanSend(s, target)
    ensures Sized(Send(s)) && MessagesOk(Send(s), target)
  {
    var c, sent, received, box := s.current, s.hist.sent[target], s.hist.received[target], s.queues[MAILBOX + target];
    assert MessagesOk(s, target) && (s.tasks[target].state == ReceiveWait ==> s.home[target] == NONE && box == []);
    hide AtHome, ExitsOk, Inv, TaskOk, SlotOk, ParentOk, StoredTid, Copied, AsU32, AsU64, AsI64, SlotOf;
    assert sent + [c] == received + (box + [c]);
    assert box == [] ==> sent + [c] == received + [c] + box;
  }

  lemma {:induction false} SendTargetSlot(s: State, target: nat)
    requires CanSend(s, target)
    ensures Sized(Send(s)) && SlotOk(Send(s), target)
  {
    hide AtHome, ExitsOk, MessagesOk, ParentOk, StoredTid, Copied, AsU32, AsU64, AsI64, SlotOf;
  }

  lemma {:induction false} SendTargetParent(s: State, target: nat)
    requires CanSend(s, target)
    ensures Sized(Send(s)) && ParentOk(Send(s), target)
  {
    hide AtHome, ExitsOk, MessagesOk, SlotOk, StoredTid, Copied, AsU32, AsU64, AsI64, SlotOf;
  }

  lemma {:induction false} SendTarget(s: State, target: nat)
    requires CanSend(s, target)
    ensures Sized(Send(s)) && TaskOk(Send(s), target)
  {
    hide CanSend, Send, SlotOk, MessagesOk, ParentOk;
    SendTargetMessages(s, target);
    SendTargetSlot(s, target);
    SendTargetParent(s, target);
  }

  lemma {:induction false} ExitsSame(s: State, s': State)
    requires Sized(s) && Sized(s') && ExitsOk(s) && s'.reuse == s.reuse && s'.hist.exited == s.hist.exited
    ensures ExitsOk(s')
  {
  }

  lemma {:induction false} SendQueues(s: State, target: nat)
    requires CanSend(s, target)
    ensures AtHome(Send(s).queues, Send(s).home)
  {
    CurrentHome(s);
    assert s.tasks[target].state == ReceiveWait ==> s.home[target] == NONE;
    hide AtHome, TaskOk, ExitsOk, StoredTid, Copied, AsU32, SlotOf;
    if s.tasks[target].state == ReceiveWait {
      PushAtHome(s.queues, s.home, READY + s.tasks[target].priority, target);
    } else {
      PushAtHome(s.queues, s.home, MAILBOX + target, s.current);
    }
  }

  lemma {:induction false} SendSame(s: State, target: nat)
    requires CanSend(s, target)
    ensures Sized(Send(s)) && GensGrow(s, Send(s)) && Send(s).current == NONE
    ensures Send(s).reuse == s.reuse && Send(s).hist.exited == s.hist.exited
    ensures forall i: nat | i < MAX_NUM_TASKS && i != s.current && i != target :: SameFor(s, Send(s), i)
  {
    hide TaskOk, AtHome, ExitsOk, StoredTid, Copied, AsU32, SlotOf;
  }

  lemma {:induction false} SendTargetHome(s: State, target: nat)
    requires Busy(s) && target < MAX_NUM_TASKS && !s.reuse[target].free
    ensures TaskOk(s, target) && 0 <= s.tasks[target].priority < NUM_PRIORITIES
    ensures s.tasks[target].state == ReceiveWait ==> s.home[target] == NONE
  {
    assert TaskOk(s, target);
  }

  lemma {:induction false} SendKeeps(s: State)
    requires Busy(s)
    ensures Prioritised(s)
    ensures Idle(Send(s))
  {
    PrioritiesOk(s);
    var c := s.current;
    var tid := s.tasks[c].regs[0];
    var target := SlotOf(tid);
    if AsU32(tid) == s.tasks[c].tid {
      ResumeKeeps(s, -2);
    } else if target >= MAX_NUM_TASKS || s.reuse[target].free {
      ResumeKeeps(s, -1);
    } else {
      SlotIsTid(tid);
      assert TaskOk(s, target);
      SendSender(s, target);
      SendTarget(s, target);
      SendQueues(s, target);
      SendSame(s, target);
      ExitsSame(s, Send(s));
      hide Send, SameFor, GensGrow, TaskOk, AtHome, ExitsOk, StoredTid, Copied, AsU32, SlotOf;
      UntouchedBut(s, Send(s), c, target);
    }
  }

  // ----- Reply -----

  ghost predicate CanReply(s: State, sender: nat) {
    && Busy(s) && sender == SlotOf(s.tasks[s.current].regs[0]) && sender < MAX_NUM_TASKS
    && !s.reuse[sender].free && s.tasks[sender].state == ReplyWait && TaskOk(s, sender)
    && Prioritised(s)
  }

  lemma {:induction false} ReplyUnfolds(s: State, sender: nat)
    requires Busy(s) && Prioritised(s) && sender == SlotOf(s.tasks[s.current].regs[0]) && sender < MAX_NUM_TASKS
    requires !s.reuse[sender].free && s.tasks[sender].state == ReplyWait
    ensures sender != s.current && 0 <= s.tasks[sender].priority < NUM_PRIORITIES && s.home[sender] == NONE
    ensures Reply(s) == Yield(ReadyPush(ReplyMessage(s, sender), sender))
  {
    assert TaskOk(s, sender);
    hide AtHome, ExitsOk, AsU64, AsI64, SlotOf, TaskOk, Copied;
  }

  lemma {:induction false} ReplyReplier(s: State, sender: nat)
    requires CanReply(s, sender)
    ensures TaskOk(Reply(s), s.current)
  {
  }

  lemma {:induction false} ReplySender(s: State, sender: nat)
    requires CanReply(s, sender)
    ensures TaskOk(Reply(s), sender)
  {
  }

  lemma {:induction false} ReplyQueues(s: State, sender: nat)
    requires CanReply(s, sender)
    ensures AtHome(Reply(s).queues, Reply(s).home) && ExitsOk(Reply(s))
  {
    var c := s.current;
    ReplyUnfolds(s, sender);
    CurrentHome(s);
    ReplySame(s, sender);
    hide AtHome, TaskOk, ExitsOk, Inv, Copied, AsU32, SlotOf, ReplyLength, SameFor;
    PushAtHome(s.queues, s.home, READY + s.tasks[sender].priority, sender);
    var s1 := Enqueue(s, READY + s.tasks[sender].priority, sender);
    PushAtHome(s1.queues, s1.home, READY + s.tasks[c].priority, c);
    ExitsSame(s, Reply(s));
  }

  lemma {:induction false} ReplySame(s: State, sender: nat)
    requires CanReply(s, sender)
    ensures Sized(Reply(s)) && GensGrow(s, Reply(s)) && Reply(s).current == NONE
    ensures forall i: nat | i < MAX_NUM_TASKS && i != s.current && i != sender :: SameFor(s, Reply(s), i)
  {
    hide TaskOk, AtHome, ExitsOk, Copied, AsU32, SlotOf, ReplyLength;
  }

  lemma {:induction false} ReplyKeeps(s: State)
    requires Busy(s)
    ensures Prioritised(s)
    ensures Idle(Reply(s))
  {
    PrioritiesOk(s);
    var c := s.current;
    var sender := SlotOf(s.tasks[c].regs[0]);
    if sender >= MAX_NUM_TASKS || s.reuse[sender].free {
      ResumeKeeps(s, -1);
    } else if s.tasks[sender].state != ReplyWait {
      ResumeKeeps(s, -2);
    } else {
      assert TaskOk(s, sender);
      ReplyReplier(s, sender);
      ReplySender(s, sender);
      ReplyQueues(s, sender);
      ReplySame(s, sender);
      hide Reply, SameFor, GensGrow, TaskOk, AtHome, ExitsOk, Copied, AsU32, SlotOf, ReplyLength;
      UntouchedBut(s, Reply(s), c, sender);
    }
  }

  // ----- Create -----

  ghost predicate CanCreate(s: State) {
    && Busy(s) && AsU32(s.tasks[s.current].regs[0]) < NUM_PRIORITIES && s.queues[FREE_LIST] != []
    && var i := s.queues[FREE_LIST][0];
    i < MAX_NUM_TASKS && i != s.current && s.home[i] == FREE_LIST && TaskOk(s, i)
  }

  lemma {:induction false} FreeHead(s: State)
    requires Busy(s) && s.queues[FREE_LIST] != []
    ensures var i := s.queues[FREE_LIST][0];
      i < MAX_NUM_TASKS && i != s.current && s.home[i] == FREE_LIST && TaskOk(s, i)
  {
  }

  lemma {:induction false} CreateCurrentSlot(s: State)
    requires CanCreate(s) && s.tasks[s.current].tid == s.current + STARTING_TASK_TID
    ensures Sized(Create(s)) && SlotOk(Create(s), s.current) && MessagesOk(Create(s), s.current)
  {
    hide AtHome, ExitsOk, ParentOk, AsU32, SlotOf;
  }

  lemma {:induction false} CreateCurrentParent(s: State)
    requires CanCreate(s) && s.tasks[s.current].tid == s.current + STARTING_TASK_TID
    ensures Sized(Create(s)) && ParentOk(Create(s), s.current)
  {
    hide AtHome, ExitsOk, SlotOk, MessagesOk, AsU32, SlotOf;
  }

  lemma {:induction false} CreateCurrent(s: State)
    requires CanCreate(s)
    ensures s.tasks[s.current].tid == s.current + STARTING_TASK_TID
    ensures Sized(Create(s)) && TaskOk(Create(s), s.current)
  {
    assert s.tasks[s.current].tid == s.current + STARTING_TASK_TID;
    hide CanCreate, Create, SlotOk, MessagesOk, ParentOk;
    CreateCurrentSlot(s);
    CreateCurrentParent(s);
  }

  lemma {:induction false} CreateNewSlot(s: State)
    requires CanCreate(s) && s.tasks[s.current].tid == s.current + STARTING_TASK_TID
    ensures Sized(Create(s)) && SlotOk(Create(s), s.queues[FREE_LIST][0])
      && MessagesOk(Create(s), s.queues[FREE_LIST][0])
  {
    hide AtHome, ExitsOk, ParentOk, AsU32, SlotOf;
  }

  lemma {:induction false} CreateNewParent(s: State)
    requires CanCreate(s) && s.tasks[s.current].tid == s.current + STARTING_TASK_TID
    ensures Sized(Create(s)) && ParentOk(Create(s), s.queues[FREE_LIST][0])
  {
    TidIsSlot(s.current);
    hide AtHome, ExitsOk, MessagesOk, AsU32, SlotOf;
  }

  lemma {:induction false} CreateNew(s: State)
    requires CanCreate(s) && s.tasks[s.current].tid == s.current + STARTING_TASK_TID
    ensures Sized(Create(s)) && TaskOk(Create(s), s.queues[FREE_LIST][0])
  {
    CreateNewSlot(s);
    CreateNewParent(s);
    hide Create, SlotOk, MessagesOk, ParentOk;
  }

  lemma {:induction false} CreateQueues(s: State)
    requires CanCreate(s) && s.tasks[s.current].tid == s.current + STARTING_TASK_TID
    ensures AtHome(Create(s).queues, Create(s).home)
  {
    var c, i, priority := s.current, s.queues[FREE_LIST][0], AsU32(s.tasks[s.current].regs[0]);
    CurrentHome(s);
    assert Sized(s) && AtHome(s.queues, s.home);
    hide Inv, AtHome, TaskOk, ExitsOk, AsU32, SlotOf;
    PopAtHome(s.queues, s.home, FREE_LIST);
    var s1 := Dequeue(s, FREE_LIST);
    PushAtHome(s1.queues, s1.home, READY + s.tasks[c].priority, c);
    var s2 := Enqueue(s1, READY + s.tasks[c].priority, c);
    PushAtHome(s2.queues, s2.home, READY + priority, i);
  }

  lemma {:induction false} CreateExits(s: State)
    requires CanCreate(s) && s.tasks[s.current].tid == s.current + STARTING_TASK_TID
    ensures Sized(Create(s)) && ExitsOk(Create(s))
  {
  }

  lemma {:induction false} CreateSame(s: State)
    requires CanCreate(s) && s.tasks[s.current].tid == s.current + STARTING_TASK_TID
    ensures Sized(Create(s)) && GensGrow(s, Create(s)) && Create(s).current == NONE
    ensures forall i: nat | i < MAX_NUM_TASKS && i != s.current
      && i != s.queues[FREE_LIST][0] :: SameFor(s, Create(s), i)
  {
    hide TaskOk, AtHome, ExitsOk, AsU32, SlotOf;
  }

  lemma {:induction false} CreateKeeps(s: State)
    requires Busy(s)
    ensures s.tasks[s.current].tid == s.current + STARTING_TASK_TID
    ensures s.queues[FREE_LIST] != [] ==> s.queues[FREE_LIST][0] < MAX_NUM_TASKS && s.queues[FREE_LIST][0] != s.current
    ensures Idle(Create(s))
  {
    if AsU32(s.tasks[s.current].regs[0]) >= NUM_PRIORITIES {
      if s.queues[FREE_LIST] != [] { FreeHead(s); }
      ResumeKeeps(s, -1);
    } else if s.queues[FREE_LIST] == [] {
      ResumeKeeps(s, -2);
    } else {
      FreeHead(s);
      CreateCurrent(s);
      CreateNew(s);
      CreateQueues(s);
      CreateExits(s);
      CreateSame(s);
      hide Create, SameFor, GensGrow, TaskOk, AtHome, ExitsOk, AsU32;
      UntouchedBut(s, Create(s), s.current, s.queues[FREE_LIST][0]);
    }
  }

  // ----- Interrupts -----

  ghost predicate CanWakeOne(s: State, q: nat) {
    && Inv(s) && IsEventQueue(q) && s.queues[q] != []
    && var i := s.queues[q][0];
    i < MAX_NUM_TASKS && s.home[i] == q && TaskOk(s, i)
  }

  ghost function WakeOne(s: State, q: nat, v: int): State
    requires CanWakeOne(s, q)
  {
    var i := s.queues[q][0];
    ReadyPush(WithResult(Dequeue(s, q), i, v), i)
  }

  lemma {:induction false} WakeOneHead(s: State, q: nat)
    requires Inv(s) && IsEventQueue(q) && s.queues[q] != []
    ensures CanWakeOne(s, q) && 0 <= s.tasks[s.queues[q][0]].priority < NUM_PRIORITIES
  {
  }

  lemma {:induction false} WakeOneQueues(s: State, q: nat, v: int)
    requires CanWakeOne(s, q) && 0 <= s.tasks[s.queues[q][0]].priority < NUM_PRIORITIES
    ensures AtHome(WakeOne(s, q, v).queues, WakeOne(s, q, v).home) && ExitsOk(WakeOne(s, q, v))
  {
  }

  lemma {:induction false} WakeOneSlot(s: State, q: nat, v: int)
    requires CanWakeOne(s, q) && 0 <= s.tasks[s.queues[q][0]].priority < NUM_PRIORITIES
    ensures Sized(WakeOne(s, q, v)) && TaskOk(WakeOne(s, q, v), s.queues[q][0])
  {
    hide AtHome, ExitsOk;
  }

  lemma {:induction false} WakeOneKeeps(s: State, q: nat, v: int)
    requires Inv(s) && IsEventQueue(q) && s.queues[q] != []
    ensures CanWakeOne(s, q) && Inv(WakeOne(s, q, v))
    ensures 0 <= s.tasks[s.queues[q][0]].priority < NUM_PRIORITIES
    ensures WakeOne(s, q, v).current == s.current
  {
    WakeOneHead(s, q);
    WakeOneQueues(s, q, v);
    WakeOneSlot(s, q, v);
    hide TaskOk, AtHome, ExitsOk;
    UntouchedBut(s, WakeOne(s, q, v), s.queues[q][0], s.queues[q][0]);
  }

  lemma {:induction false} InvCanWake(s: State, event: nat)
    requires Inv(s) && event < MAX_NUM_EVENTS
    ensures CanWake(s, event)
  {
    var q := s.queues[EVENT + event];
    forall k | 0 <= k < |q|
      ensures q[k] < MAX_NUM_TASKS && 0 <= s.tasks[q[k]].priority < NUM_PRIORITIES
    {
      assert s.home[q[k]] == EVENT + event;
      assert TaskOk(s, q[k]);
    }
  }

  lemma {:induction false} WakeUnfolds(s: State, event: nat, v: int)
    requires CanWake(s, event) && Inv(s)
    ensures var q := s.queues[EVENT + event];
      if q == [] then WakeAll(s, event, v) == s
      else
        && CanWakeOne(s, EVENT + event)
        && var s' := WakeOne(s, EVENT + event, v);
        Inv(s') && CanWake(s', event) && WakeAll(s, event, v) == WakeAll(s', event, v)
  {
    if s.queues[EVENT + event] != [] {
      WakeOneKeeps(s, EVENT + event, v);
      InvCanWake(WakeOne(s, EVENT + event, v), event);
    }
    hide Inv, AtHome, ExitsOk, TaskOk, WithResult;
  }

  /** An interrupt keeps everything, and leaves no task waiting for its event. */
  lemma {:induction false} WakeAllKeeps(s: State, event: nat, v: int)
    requires Inv(s) && event < MAX_NUM_EVENTS
    ensures CanWake(s, event)
    ensures var s' := WakeAll(s, event, v); Inv(s') && s'.current == s.current && s'.queues[EVENT + event] == []
    decreases |s.queues[EVENT + event]|
  {
    InvCanWake(s, event);
    if s.queues[EVENT + event] == [] {
    } else {
      WakeOneKeeps(s, EVENT + event, v);
      WakeAllKeeps(WakeOne(s, EVENT + event, v), event, v);
    }
  }

  // ----- Whole runs -----

  ghost function Serve(s: State, request: Request): (s': State)
    requires Busy(s)
    requires request.Interrupt? && request.wakes.Some? ==> request.wakes.value.event < MAX_NUM_EVENTS
    ensures Idle(s')
  {
    match request
    case CreateRequest => CreateKeeps(s); Create(s)
    case MyTidRequest => ResumeKeeps(s, s.tasks[s.current].tid); MyTid(s)
    case MyParentTidRequest => MyParentTidKeeps(s); MyParentTid(s)
    case ExitRequest => ExitKeeps(s); Exit(s)
    case SendRequest => SendKeeps(s); Send(s)
    case ReceiveRequest => ReceiveKeeps(s); Receive(s)
    case ReplyRequest => ReplyKeeps(s); Reply(s)
    case AwaitEventRequest => AwaitEventKeeps(s); AwaitEvent(s)
    case OtherRequest(None) => YieldKeeps(s); Yield(s)
    case OtherRequest(Some(v)) => ResumeKeeps(s, v); Resume(s, v)
    case Interrupt(None) => YieldKeeps(s); Yield(s)
    case Interrupt(Some(wake)) =>
      WakeAllKeeps(s, wake.event, wake.result);
      var woken := WakeAll(s, wake.event, wake.result);
      BusyAgain(s, woken);
      YieldKeeps(woken);
      Yield(woken)
  }

  lemma {:induction false} CurrentParent(s: State)
    requires Busy(s)
    ensures !s.reuse[s.current].free && ParentOk(s, s.current) && ParentKnown(s, s.current)
  {
  }

  lemma {:induction false} MyParentTidKeeps(s: State)
    requires Busy(s)
    ensures ParentKnown(s, s.current) && Idle(MyParentTid(s))
  {
    CurrentParent(s);
    hide Inv, TaskOk, ParentGone, Resume;
    var parent := s.tasks[s.current].parentTid;
    ResumeKeeps(s, if ParentGone(s, s.current) then parent + EXITED_PARENT_MASK else parent);
  }

  lemma {:induction false} BusyAgain(s: State, s': State)
    requires Busy(s) && Inv(s') && s'.current == s.current
    ensures Busy(s')
  {
    assert TaskOk(s', s.current);
  }

  // What is served is what was asked for.

  lemma {:induction false} ServesCreate(s: State)
    requires Busy(s)
    ensures Create.requires(s) && Serve(s, CreateRequest) == Create(s)
  {
    hide Inv, TaskOk, Create, Exit, Send, Receive, Reply, AwaitEvent, Yield, Resume, WakeAll, ParentGone, Prioritised;
    CreateKeeps(s);
  }

  lemma {:induction false} ServesParent(s: State)
    requires Busy(s)
    ensures ParentKnown(s, s.current) && Serve(s, MyParentTidRequest) == MyParentTid(s)
  {
    hide Inv, TaskOk, Create, Exit, Send, Receive, Reply, AwaitEvent, Yield, Resume, WakeAll, ParentGone, Prioritised;
    MyParentTidKeeps(s);
  }

  lemma {:induction false} ServesSend(s: State)
    requires Busy(s)
    ensures Send.requires(s) && Serve(s, SendRequest) == Send(s)
  {
    hide Inv, TaskOk, Create, Exit, Send, Receive, Reply, AwaitEvent, Yield, Resume, WakeAll, ParentGone, Prioritised;
    SendKeeps(s);
  }

  lemma {:induction false} ServesReceive(s: State)
    requires Busy(s)
    ensures Receive.requires(s) && Serve(s, ReceiveRequest) == Receive(s)
  {
    hide Inv, TaskOk, Create, Exit, Send, Receive, Reply, AwaitEvent, Yield, Resume, WakeAll, ParentGone, Prioritised;
    ReceiveKeeps(s);
  }

  lemma {:induction false} ServesReply(s: State)
    requires Busy(s)
    ensures Reply.requires(s) && Serve(s, ReplyRequest) == Reply(s)
  {
    hide Inv, TaskOk, Create, Exit, Send, Receive, Reply, AwaitEvent, Yield, Resume, WakeAll, ParentGone, Prioritised;
    ReplyKeeps(s);
  }

  /** One turn of the dispatch loop. */
  ghost function Turn(s: State, input: Input): (s': State)
    requires Idle(s) && Order(Levels(s)) != [] && ValidInput(input)
    ensures Idle(s')
  {
    ReadyCanDispatch(s);
    DispatchKeeps(s);
    UserRunsKeeps(Dispatch(s), input.regs, input.mem);
    Serve(UserRuns(Dispatch(s), input.regs, input.mem), input.request)
  }

  /** The dispatch loop, which ends when nothing is ready. */
  ghost function Run(s: State, inputs: seq<Input>): (s': State)
    requires Idle(s) && forall k | 0 <= k < |inputs| :: ValidInput(inputs[k])
    ensures Idle(s')
    decreases |inputs|
  {
    if inputs == [] || Order(Levels(s)) == [] then s else Run(Turn(s, inputs[0]), inputs[1..])
  }

  lemma {:induction false} BlankKeeps(tasks: seq<Task>, mem: Memory)
    requires Raw(tasks)
    ensures Idle(Blank(tasks, mem)) && Blank(tasks, mem).queues[FREE_LIST] != []
      && Blank(tasks, mem).queues[FREE_LIST][0] == 0
  {
    var blank := Blank(tasks, mem);
    forall s | 0 <= s < MAX_NUM_TASKS
      ensures s in blank.queues[FREE_LIST]
    {
      assert blank.queues[FREE_LIST][s] == s;
    }
    assert AtHome(blank.queues, blank.home);
  }

  lemma {:induction false} BootKeeps(tasks: seq<Task>, mem: Memory, arg: int)
    requires Raw(tasks)
    ensures Idle(Boot(tasks, mem, arg))
  {
    var blank, s' := Blank(tasks, mem), Boot(tasks, mem, arg);
    BlankKeeps(tasks, mem);
    PopAtHome(blank.queues, blank.home, FREE_LIST);
    var s1 := Dequeue(blank, FREE_LIST);
    PushAtHome(s1.queues, s1.home, READY + PRIORITY_L2, 0);
    assert TaskOk(s', 0) && ExitsOk(s') by { assert TaskOk(blank, 0); hide AtHome; }
    hide TaskOk, AtHome, ExitsOk;
    UntouchedBut(blank, s', 0, 0);
  }

  // ----- History is only ever added to -----

  ghost predicate Later(s: State, s': State) {
    && Sized(s) && Sized(s')
    && (forall i | 0 <= i < MAX_NUM_TASKS ::
          s.hist.sent[i] <= s'.hist.sent[i] && s.hist.received[i] <= s'.hist.received[i])
    && (forall i | 0 <= i < MAX_NUM_TASKS ::
          s.hist.sends[i] <= s'.hist.sends[i] && s.hist.replies[i] <= s'.hist.replies[i])
    && s.hist.exited <= s'.hist.exited && GensGrow(s, s')
    && (forall inc | inc in s.hist.creator && Lived(s, inc) ::
          inc in s'.hist.creator && s'.hist.creator[inc] == s.hist.creator[inc] && Lived(s', inc))
  }

  lemma {:induction false} LaterTrans(a: State, b: State, c: State)
    requires Later(a, b) && Later(b, c)
    ensures Later(a, c)
  {
  }

  lemma {:induction false} SameHistory(s: State, s': State)
    requires Sized(s) && Sized(s') && s'.hist == s.hist && s'.reuse == s.reuse
    ensures Later(s, s')
  {
  }

  ghost predicate ReadyGrowsAt(s: State, s': State, p: nat)
    requires |s.queues| == |s'.queues| == NUM_QUEUES && p < NUM_PRIORITIES
  {
    s.queues[READY + p] <= s'.queues[READY + p]
  }

  /** Besides, while a task is served nothing ready is taken away or overtaken, and only that
      task can have sent anything. */
  ghost predicate Grows(s: State, s': State) {
    && Later(s, s')
    && (forall p: nat | p < NUM_PRIORITIES :: ReadyGrowsAt(s, s', p))
    && (forall i | 0 <= i < MAX_NUM_TASKS && i != s.current :: s'.hist.sends[i] == s.hist.sends[i])
  }

  lemma {:induction false} GrowsSame(s: State, s': State)
    requires Sized(s) && Sized(s') && s'.hist == s.hist && s'.reuse == s.reuse
    requires forall p: nat | p < NUM_PRIORITIES :: ReadyGrowsAt(s, s', p)
    ensures Grows(s, s')
  {
    hide Sized, ReadyGrowsAt;
    SameHistory(s, s');
  }

  lemma {:induction false} ResumeGrows(s: State, v: int)
    requires Busy(s)
    ensures Grows(s, Resume(s, v))
  {
    ResumeKeeps(s, v);
    hide Inv, TaskOk;
    GrowsSame(s, Resume(s, v));
  }

  lemma {:induction false} YieldGrows(s: State)
    requires Busy(s)
    ensures Grows(s, Yield(s))
  {
    YieldKeeps(s);
    hide Inv, TaskOk;
    GrowsSame(s, Yield(s));
  }

  lemma {:induction false} CreatedLater(s: State)
    requires CanCreate(s) && s.tasks[s.current].tid == s.current + STARTING_TASK_TID
    ensures Later(s, Create(s)) && Create(s).hist.sends == s.hist.sends
  {
    CreateExits(s);
    hide Inv, TaskOk, AsU32, SlotOf, AtHome, ExitsOk;
  }

  lemma {:induction false} CreatedReady(s: State, p: nat)
    requires CanCreate(s) && s.tasks[s.current].tid == s.current + STARTING_TASK_TID && p < NUM_PRIORITIES
    ensures |Create(s).queues| == NUM_QUEUES && ReadyGrowsAt(s, Create(s), p)
  {
    hide Inv, TaskOk, AsU32, SlotOf;
  }

  lemma {:induction false} CreateGrows(s: State)
    requires Busy(s)
    ensures Create.requires(s) && Grows(s, Create(s))
  {
    CreateKeeps(s);
    if AsU32(s.tasks[s.current].regs[0]) >= NUM_PRIORITIES {
      ResumeGrows(s, -1);
    } else if s.queues[FREE_LIST] == [] {
      ResumeGrows(s, -2);
    } else {
      FreeHead(s);
      CreatedLater(s);
      hide Create, Later, Inv, TaskOk, ReadyGrowsAt;
      forall p: nat | p < NUM_PRIORITIES
        ensures ReadyGrowsAt(s, Create(s), p)
      {
        CreatedReady(s, p);
      }
    }
  }

  lemma {:induction false} ExitGrows(s: State)
    requires Busy(s)
    ensures Grows(s, Exit(s))
  {
    ExitKeeps(s);
    hide Inv, TaskOk;
  }

  lemma {:induction false} AwaitEventGrows(s: State)
    requires Busy(s)
    ensures Grows(s, AwaitEvent(s))
  {
    AwaitEventKeeps(s);
    if AsU32(s.tasks[s.current].regs[0]) < MAX_NUM_EVENTS {
      hide Inv, TaskOk, AsU32;
      GrowsSame(s, AwaitEvent(s));
    } else {
      ResumeGrows(s, -1);
    }
  }

  lemma {:induction false} SentLater(s: State, target: nat)
    requires CanSend(s, target)
    ensures Sized(Send(s)) && Later(s, Send(s))
    ensures forall i | 0 <= i < MAX_NUM_TASKS && i != s.current :: Send(s).hist.sends[i] == s.hist.sends[i]
  {
    SendSame(s, target);
    hide Inv, TaskOk, StoredTid, Copied, AsU32, AsU64, AsI64, SlotOf, SameFor;
  }

  lemma {:induction false} SentReady(s: State, target: nat, p: nat)
    requires CanSend(s, target) && p < NUM_PRIORITIES
    ensures |Send(s).queues| == NUM_QUEUES && ReadyGrowsAt(s, Send(s), p)
  {
    hide Inv, TaskOk, StoredTid, Copied, AsU32, AsU64, AsI64, SlotOf;
  }

  lemma {:induction false} SendGrows(s: State)
    requires Busy(s)
    ensures Send.requires(s) && Grows(s, Send(s))
  {
    SendKeeps(s);
    var tid := s.tasks[s.current].regs[0];
    var target := SlotOf(tid);
    if AsU32(tid) == s.tasks[s.current].tid {
      ResumeGrows(s, -2);
    } else if target >= MAX_NUM_TASKS || s.reuse[target].free {
      ResumeGrows(s, -1);
    } else {
      SlotIsTid(tid);
      assert TaskOk(s, target);
      SentLater(s, target);
      hide Send, Later, Inv, TaskOk, ReadyGrowsAt;
      forall p: nat | p < NUM_PRIORITIES
        ensures ReadyGrowsAt(s, Send(s), p)
      {
        SentReady(s, target, p);
      }
    }
  }

  lemma {:induction false} ReceivedLater(s: State)
    requires Busy(s) && s.queues[MAILBOX + s.current] != [] && s.queues[MAILBOX + s.current][0] < MAX_NUM_TASKS
    requires Sized(Receive(s))
    ensures Later(s, Receive(s)) && Receive(s).hist.sends == s.hist.sends
    ensures forall p: nat | p < NUM_PRIORITIES :: ReadyGrowsAt(s, Receive(s), p)
  {
    hide Inv, TaskOk, StoredTid, Copied, AsU64, AsI64;
  }

  lemma {:induction false} ReceiveGrows(s: State)
    requires Busy(s)
    ensures Receive.requires(s) && Grows(s, Receive(s))
  {
    ReceiveKeeps(s);
    if s.queues[MAILBOX + s.current] != [] {
      ReceivedLater(s);
      hide Receive, Later, Inv, TaskOk, ReadyGrowsAt;
    } else {
      hide Inv, TaskOk;
      GrowsSame(s, Receive(s));
    }
  }

  lemma {:induction false} RepliedLater(s: State, sender: nat)
    requires CanReply(s, sender) && Sized(Reply(s))
    ensures Later(s, Reply(s)) && Reply(s).hist.sends == s.hist.sends
    ensures forall p: nat | p < NUM_PRIORITIES :: ReadyGrowsAt(s, Reply(s), p)
  {
    ReplyUnfolds(s, sender);
    hide Reply, Inv, TaskOk, Copied, SlotOf, ReplyLength, AsI64;
  }

  lemma {:induction false} ReplyGrows(s: State)
    requires Busy(s)
    ensures Reply.requires(s) && Grows(s, Reply(s))
  {
    ReplyKeeps(s);
    var sender := SlotOf(s.tasks[s.current].regs[0]);
    if sender >= MAX_NUM_TASKS || s.reuse[sender].free {
      ResumeGrows(s, -1);
    } else if s.tasks[sender].state != ReplyWait {
      ResumeGrows(s, -2);
    } else {
      assert TaskOk(s, sender);
      RepliedLater(s, sender);
      hide Reply, Later, Inv, TaskOk, ReadyGrowsAt;
    }
  }

  lemma {:induction false} ReadyGrowsTrans(a: State, b: State, c: State)
    requires |a.queues| == |b.queues| == |c.queues| == NUM_QUEUES
    requires forall p: nat | p < NUM_PRIORITIES :: ReadyGrowsAt(a, b, p)
    requires forall p: nat | p < NUM_PRIORITIES :: ReadyGrowsAt(b, c, p)
    ensures forall p: nat | p < NUM_PRIORITIES :: ReadyGrowsAt(a, c, p)
  {
    forall p: nat | p < NUM_PRIORITIES
      ensures ReadyGrowsAt(a, c, p)
    {
      assert ReadyGrowsAt(a, b, p) && ReadyGrowsAt(b, c, p);
    }
  }

  lemma {:induction false} WakeOneGrows(s: State, q: nat, v: int)
    requires CanWakeOne(s, q) && Sized(s) && 0 <= s.tasks[s.queues[q][0]].priority < NUM_PRIORITIES
    ensures var s' := WakeOne(s, q, v);
      && s'.hist == s.hist && s'.reuse == s.reuse && |s'.queues| == NUM_QUEUES
      && |s'.queues[q]| < |s.queues[q]|
      && forall p: nat | p < NUM_PRIORITIES :: ReadyGrowsAt(s, s', p)
  {
    hide Inv, TaskOk;
  }

  lemma {:induction false} WakeAllGrows(s: State, event: nat, v: int)
    requires Inv(s) && event < MAX_NUM_EVENTS && CanWake(s, event)
    ensures var s' := WakeAll(s, event, v);
      && s'.hist == s.hist && s'.reuse == s.reuse && Sized(s')
      && forall p: nat | p < NUM_PRIORITIES :: ReadyGrowsAt(s, s', p)
    decreases |s.queues[EVENT + event]|
  {
    assert Sized(s);
    WakeUnfolds(s, event, v);
    hide Inv, TaskOk, WakeOne, WakeAll, CanWakeOne;
    if s.queues[EVENT + event] == [] {
    } else {
      var s1 := WakeOne(s, EVENT + event, v);
      WakeOneGrows(s, EVENT + event, v);
      WakeAllGrows(s1, event, v);
      hide ReadyGrowsAt;
      ReadyGrowsTrans(s, s1, WakeAll(s, event, v));
    }
  }

  lemma {:induction false} InterruptGrows(s: State, wake: Wake)
    requires Busy(s) && wake.event < MAX_NUM_EVENTS
    ensures Grows(s, Serve(s, Interrupt(Some(wake))))
  {
    assert Sized(s);
    WakeAllKeeps(s, wake.event, wake.result);
    var woken := WakeAll(s, wake.event, wake.result);
    WakeAllGrows(s, wake.event, wake.result);
    hide Yield, WakeAll, Inv, TaskOk, ReadyGrowsAt, Later, Sized;
    BusyAgain(s, woken);
    YieldGrows(woken);
    SameHistory(s, woken);
    LaterTrans(s, woken, Yield(woken));
    ReadyGrowsTrans(s, woken, Yield(woken));
  }

  lemma {:induction false} ServeGrows(s: State, request: Request)
    requires Busy(s)
    requires request.Interrupt? && request.wakes.Some? ==> request.wakes.value.event < MAX_NUM_EVENTS
    ensures Grows(s, Serve(s, request))
  {
    hide Grows, Inv, TaskOk, Create, Exit, Send, Receive, Reply, AwaitEvent, Yield, Resume, WakeAll;
    match request {
      case CreateRequest => CreateGrows(s);
      case MyTidRequest => ResumeGrows(s, s.tasks[s.current].tid);
      case MyParentTidRequest =>
        MyParentTidKeeps(s);
        var parent := s.tasks[s.current].parentTid;
        ResumeGrows(s, if ParentGone(s, s.current) then parent + EXITED_PARENT_MASK else parent);
      case ExitRequest => ExitGrows(s);
      case SendRequest => SendGrows(s);
      case ReceiveRequest => ReceiveGrows(s);
      case ReplyRequest => ReplyGrows(s);
      case AwaitEventRequest => AwaitEventGrows(s);
      case OtherRequest(None) => YieldGrows(s);
      case OtherRequest(Some(v)) => ResumeGrows(s, v);
      case Interrupt(None) => YieldGrows(s);
      case Interrupt(Some(wake)) => InterruptGrows(s, wake);
    }
  }

  /** Whatever a turn does, it only adds to what has happened. */
  lemma {:induction false} TurnLater(s: State, input: Input)
    requires Idle(s) && Order(Levels(s)) != [] && ValidInput(input)
    ensures Later(s, Turn(s, input))
  {
    ReadyCanDispatch(s);
    DispatchKeeps(s);
    var user := UserRuns(Dispatch(s), input.regs, input.mem);
    UserRunsKeeps(Dispatch(s), input.regs, input.mem);
    SameHistory(s, user);
    ServeGrows(user, input.request);
    assert Turn(s, input) == Serve(user, input.request);
    hide Serve, Dispatch, UserRuns, Later, Turn;
    LaterTrans(s, user, Turn(s, input));
  }

  /** Over any run from boot, ownership stays exclusive, messages keep their order, and what
      has happened is never forgotten. */
  lemma {:induction false} SafeOnEveryRun(s: State, inputs: seq<Input>)
    requires Idle(s) && forall k | 0 <= k < |inputs| :: ValidInput(inputs[k])
    ensures Idle(Run(s, inputs)) && Later(s, Run(s, inputs))
    decreases |inputs|
  {
    if inputs != [] && Order(Levels(s)) != [] {
      var s1 := Turn(s, inputs[0]);
      TurnLater(s, inputs[0]);
      SafeOnEveryRun(s1, inputs[1..]);
      hide Later, Turn, Inv;
      LaterTrans(s, s1, Run(s1, inputs[1..]));
    } else {
      SameHistory(s, s);
    }
  }

  // ----- What the invariant means -----

  datatype Place = OnFreeList | OnReady(priority: nat) | InMailbox(owner: nat) | OnEvent(event: nat)
                 | Receiving | AwaitingReply | IsCurrent

  /** What keeps hold of slot `i`: a queue it is in, or the tag it waits with. */
  ghost predicate HeldAt(s: State, i: nat, place: Place)
    requires Sized(s) && i < MAX_NUM_TASKS
  {
    match place
    case OnFreeList => i in s.queues[FREE_LIST]
    case OnReady(p) => p < NUM_PRIORITIES && i in s.queues[READY + p]
    case InMailbox(m) => m < MAX_NUM_TASKS && i in s.queues[MAILBOX + m]
    case OnEvent(e) => e < MAX_NUM_EVENTS && i in s.queues[EVENT + e]
    case Receiving => !s.reuse[i].free && s.tasks[i].state == ReceiveWait
    case AwaitingReply => !s.reuse[i].free && s.tasks[i].state == ReplyWait
    case IsCurrent => i == s.current
  }

  ghost function PlaceOf(s: State, i: nat): Place
    requires Sized(s) && i < MAX_NUM_TASKS
  {
    var w := s.home[i];
    if w == FREE_LIST then OnFreeList
    else if IsReadyQueue(w) then OnReady(w - READY)
    else if IsMailbox(w) then InMailbox(w - MAILBOX)
    else if IsEventQueue(w) then OnEvent(w - EVENT)
    else if i == s.current then IsCurrent
    else if s.tasks[i].state == ReceiveWait then Receiving
    else AwaitingReply
  }

  /** Every slot is held in exactly one place, once: no link is ever used twice. */
  lemma {:induction false} ExclusiveOwnership(s: State, i: nat, place: Place)
    requires Inv(s) && i < MAX_NUM_TASKS
    ensures HeldAt(s, i, place) <==> place == PlaceOf(s, i)
    ensures forall q | 0 <= q < NUM_QUEUES :: NoRepeat(s.queues[q])
  {
    assert TaskOk(s, i);
    forall q | 0 <= q < NUM_QUEUES
      ensures i in s.queues[q] <==> s.home[i] == q
    {
    }
  }

  /** `MyParentTid` sets the exited bit exactly when the incarnation that created the caller
      has exited, however often the slots have been reused since. */
  lemma {:induction false} ParentTruth(s: State)
    requires Busy(s) && s.tasks[s.current].parentTid != KERNEL_TID
    ensures Me(s, s.current) in s.hist.creator
    ensures var result := Serve(s, MyParentTidRequest).tasks[s.current].regs[0];
      var creator := s.hist.creator[Me(s, s.current)];
      && (result == s.tasks[s.current].parentTid + EXITED_PARENT_MASK <==> creator in s.hist.exited)
      && (result == s.tasks[s.current].parentTid <==> creator !in s.hist.exited)
      && creator.slot == s.tasks[s.current].parentTid - STARTING_TASK_TID
  {
    CurrentParent(s);
    ServesParent(s);
    var parent := s.hist.creator[Me(s, s.current)];
    assert parent in s.hist.exited <==> Over(s, parent);
  }

  /** A receiver never sleeps on a message, what it received is what was sent to it first,
      and a sender has been answered once for every send but the one it may be waiting for. */
  lemma {:induction false} MessagesSafe(s: State, i: nat)
    requires Inv(s) && i < MAX_NUM_TASKS
    ensures HeldAt(s, i, Receiving) ==> s.queues[MAILBOX + i] == [] && s.hist.sent[i] == s.hist.received[i]
    ensures s.hist.received[i] <= s.hist.sent[i]
    ensures s.hist.sends[i] == s.hist.replies[i] +
      if HeldAt(s, i, AwaitingReply) || (!s.reuse[i].free && s.tasks[i].state == SendWait) then 1 else 0
  {
    assert TaskOk(s, i);
  }

  lemma {:induction false} ReplyTasks(s: State, sender: nat)
    requires Running(s) && sender < MAX_NUM_TASKS && sender != s.current
      && 0 <= s.tasks[sender].priority < NUM_PRIORITIES
    ensures var c, s' := s.current, Yield(ReadyPush(ReplyMessage(s, sender), sender));
      var n := ReplyLength(s.tasks[c].regs[2], s.tasks[sender].regs[4]);
      && s'.mem == Copied(s.mem, s.tasks[sender].regs[3], s.tasks[c].regs[1], n)
      && s'.tasks[sender].state == Ready && s'.tasks[sender].regs[0] == AsI64(n)
      && s'.tasks[c].state == Ready && s'.tasks[c].regs[0] == AsI64(n)
      && s'.hist.replies == s.hist.replies[sender := s.hist.replies[sender] + 1]
  {
    hide Copied, ReplyLength, AsI64;
  }

  lemma {:induction false} CopiedAt(mem: Memory, dest: int, src: int, n: nat, a: int)
    ensures Copied(mem, dest, src, n)(a) == if dest <= a < dest + n then mem(src + (a - dest)) else mem(a)
  {
  }

  /** The shorter of the two lengths of the message is in the sender's buffer, the replier and
      the sender both know how long that is, and no other memory changed: `a` is any address. */
  ghost predicate Answered(s: State, s': State, sender: nat, a: int)
    requires Running(s) && Sized(s') && sender < MAX_NUM_TASKS
  {
    var c := s.current;
    var src, dest := s.tasks[c].regs[1], s.tasks[sender].regs[3];
    var srclen, destlen := AsU64(s.tasks[c].regs[2]), AsU64(s.tasks[sender].regs[4]);
    var n := if srclen < destlen then srclen else destlen;
    && s'.mem(a) == (if dest <= a < dest + n then s.mem(src + (a - dest)) else s.mem(a))
    && s'.tasks[sender].state == Ready && s'.tasks[sender].regs[0] == AsI64(n)
    && s'.tasks[c].state == Ready && s'.tasks[c].regs[0] == AsI64(n)
    && s'.hist.replies == s.hist.replies[sender := s.hist.replies[sender] + 1]
  }

  /** A reply to a task that waits for one delivers as much of it as there is room for. */
  lemma {:induction false} ReplyDelivered(s: State, sender: nat, a: int)
    requires Busy(s) && Prioritised(s) && sender == SlotOf(s.tasks[s.current].regs[0]) && sender < MAX_NUM_TASKS
    requires HeldAt(s, sender, AwaitingReply)
    ensures Sized(Reply(s)) && Answered(s, Reply(s), sender, a)
  {
    ReplyUnfolds(s, sender);
    ReplyTasks(s, sender);
    var from, to := s.tasks[s.current].regs, s.tasks[sender].regs;
    CopiedAt(s.mem, to[3], from[1], ReplyLength(from[2], to[4]), a);
    ReplyKeeps(s);
    hide Reply, Inv, TaskOk, AsU64, AsI64, SlotOf, Prioritised, Yield, ReadyPush, ReplyMessage, Copied, Busy;
  }

  /** Any other reply changes nothing but its caller's result. */
  lemma {:induction false} ReplyRefused(s: State)
    requires Busy(s) && Prioritised(s)
    requires var sender := SlotOf(s.tasks[s.current].regs[0]);
      sender >= MAX_NUM_TASKS || !HeldAt(s, sender, AwaitingReply)
    ensures var sender := SlotOf(s.tasks[s.current].regs[0]);
      Reply(s) == Resume(s, if sender >= MAX_NUM_TASKS || s.reuse[sender].free then -1 else -2)
    ensures Reply(s).mem == s.mem && Reply(s).hist == s.hist && Reply(s).reuse == s.reuse
    ensures forall i | 0 <= i < MAX_NUM_TASKS && i != s.current ::
      Reply(s).tasks[i] == s.tasks[i] && Reply(s).home[i] == s.home[i]
  {
    hide AtHome, ExitsOk, SlotOf, TaskOk;
  }

  /** The receiver has the sender's id and the whole message, as long as the sender says it
      is; the room the receiver gave (`regs[2]`) was enough exactly if the message is no
      longer. `a` is any address. */
  ghost predicate Delivered(s: State, s': State, sender: nat, receiver: nat, a: int)
    requires Sized(s) && Sized(s') && sender < MAX_NUM_TASKS && receiver < MAX_NUM_TASKS
  {
    var from, to := s.tasks[sender].regs, s.tasks[receiver].regs;
    var n, room := AsU64(from[2]), AsU64(to[2]);
    && (to[0] <= a < to[0] + 4 ==> s'.mem(a) == StoredByte(s.mem, to[0], sender + STARTING_TASK_TID, a))
    && (to[1] <= a < to[1] + n && !(to[0] <= a < to[0] + 4) ==> s'.mem(a) == s.mem(from[1] + (a - to[1])))
    && (!(to[1] <= a < to[1] + n) && !(to[0] <= a < to[0] + 4) ==> s'.mem(a) == s.mem(a))
    && s'.tasks[receiver].state == Ready && s'.tasks[receiver].regs[0] == AsI64(n)
    && s'.tasks[sender].state == ReplyWait
    && (AsU64(s'.tasks[receiver].regs[0]) == ReplyLength(from[2], to[2]) <==> n <= room)
  }

  lemma {:induction false} Sent(s: State, s': State, sender: nat, receiver: nat, a: int)
    requires Sized(s) && Sized(s') && sender < MAX_NUM_TASKS && receiver < MAX_NUM_TASKS
    requires s.tasks[sender].tid == sender + STARTING_TASK_TID
    requires var from, to := s.tasks[sender].regs, s.tasks[receiver].regs;
      && s'.mem == StoredTid(Copied(s.mem, to[1], from[1], AsU64(from[2])), to[0], s.tasks[sender].tid)
      && s'.tasks[receiver].state == Ready && s'.tasks[receiver].regs[0] == AsI64(AsU64(from[2]))
      && s'.tasks[sender].state == ReplyWait
    ensures Delivered(s, s', sender, receiver, a)
  {
  }

  /** Straight to a task that waits for a message. */
  lemma {:induction false} SendDelivered(s: State, target: nat, a: int)
    requires CanSend(s, target) && HeldAt(s, target, Receiving)
    ensures Sized(Send(s)) && Delivered(s, Send(s), s.current, target, a)
  {
    assert s.tasks[s.current].tid == s.current + STARTING_TASK_TID;
    SendSame(s, target);
    hide TaskOk, AtHome, ExitsOk, StoredTid, Copied, SlotOf, AsU64, AsI64, Delivered, GensGrow, SameFor;
    Sent(s, Send(s), s.current, target, a);
  }

  /** From the mailbox. */
  lemma {:induction false} ReceiveDelivered(s: State, a: int)
    requires Busy(s) && s.queues[MAILBOX + s.current] != []
    ensures var sender := s.queues[MAILBOX + s.current][0];
      sender < MAX_NUM_TASKS && Sized(Receive(s)) && Delivered(s, Receive(s), sender, s.current, a)
  {
    BoxHead(s);
    var sender := s.queues[MAILBOX + s.current][0];
    assert s.tasks[sender].tid == sender + STARTING_TASK_TID;
    ReceiveSame(s, sender);
    hide TaskOk, AtHome, ExitsOk, StoredTid, Copied, SlotOf, AsU64, AsI64, Delivered, GensGrow, SameFor;
    Sent(s, Receive(s), sender, s.current, a);
  }
}
