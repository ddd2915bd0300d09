/** What the calls do, said with task ids, places and orders rather than slots and queues. */
module KernelCalls {
  import opened Containers
  import opened MachineInts
  import opened Sequences
  import opened KernelSteps
  import opened KernelSafety

  /** `i` holds a live task, and `tid` is its id. */
  ghost predicate Named(s: State, i: nat, tid: int)
    requires Sized(s)
  {
    i < MAX_NUM_TASKS && !s.reuse[i].free && s.tasks[i].tid == tid
  }

  ghost predicate Unnamed(s: State, tid: int)
    requires Sized(s)
  {
    forall i: nat | i < MAX_NUM_TASKS :: !Named(s, i, tid)
  }

  /** The arithmetic on ids finds the live task with that id, and only if there is one. */
  lemma {:induction false} SlotFinds(s: State, tid: int)
    requires Inv(s)
    ensures Unnamed(s, AsU32(tid)) <==> SlotOf(tid) >= MAX_NUM_TASKS || s.reuse[SlotOf(tid)].free
    ensures forall i: nat | Named(s, i, AsU32(tid)) :: i == SlotOf(tid)
  {
    var slot := SlotOf(tid);
    if slot < MAX_NUM_TASKS {
      SlotIsTid(tid);
      assert TaskOk(s, slot);
      assert !s.reuse[slot].free ==> Named(s, slot, AsU32(tid));
    }
    forall i: nat | Named(s, i, AsU32(tid))
      ensures i == slot
    {
      assert TaskOk(s, i);
    }
  }

  ghost predicate Behind(s: State, s': State, q: nat, added: seq<nat>)
    requires Sized(s) && Sized(s') && q < NUM_QUEUES
  {
    s'.queues[q] == s.queues[q] + added
  }

  lemma {:induction false} BehindTrans(a: State, b: State, c: State, q: nat, x: seq<nat>, y: seq<nat>)
    requires Sized(a) && Sized(b) && Sized(c) && q < NUM_QUEUES && Behind(a, b, q, x) && Behind(b, c, q, y)
    ensures Behind(a, c, q, x + y)
  {
  }

  ghost function Calls(s: State): int
    requires Running(s)
  {
    AsU32(s.tasks[s.current].regs[0])
  }

  /** The caller has `v` and is ready, last of its level. */
  ghost predicate Resumed(s: State, s': State, v: int)
    requires Running(s) && Sized(s')
  {
    var c := s.current;
    && s'.tasks == s.tasks[c := s.tasks[c].(state := Ready, regs := s.tasks[c].regs[0 := v])]
    && Behind(s, s', READY + s.tasks[c].priority, [c]) && OnlyQueue(s, s', READY + s.tasks[c].priority)
  }

  /** Queue `q` is the only one that differs; memory and history are the same. */
  ghost predicate OnlyQueue(s: State, s': State, q: nat)
    requires Sized(s) && Sized(s') && q < NUM_QUEUES
  {
    && s'.current == NONE && s'.mem == s.mem && s'.hist == s.hist && s'.reuse == s.reuse
    && forall p | 0 <= p < NUM_QUEUES && p != q :: s'.queues[p] == s.queues[p]
  }

  lemma {:induction false} ResumeReturns(s: State, v: int)
    requires Busy(s)
    ensures Sized(Resume(s, v)) && Resumed(s, Resume(s, v), v)
  {
    hide Inv, TaskOk;
  }

  /** A send to oneself and a send to no live task are refused. */
  lemma {:induction false} SendRefused(s: State)
    requires Busy(s)
    ensures var s', me := Serve(s, SendRequest), s.tasks[s.current].tid;
      && (Calls(s) == me ==> Resumed(s, s', -2))
      && (Calls(s) != me && Unnamed(s, Calls(s)) ==> Resumed(s, s', -1))
  {
    ServesSend(s);
    SlotFinds(s, s.tasks[s.current].regs[0]);
    ResumeReturns(s, -2);
    ResumeReturns(s, -1);
    hide Inv, TaskOk, AsU32, SlotOf, Unnamed, Serve, Resume, Resumed;
  }

  lemma {:induction false} SendGoes(s: State, target: nat)
    requires Busy(s) && Named(s, target, Calls(s)) && target != s.current
    ensures CanSend(s, target) && Serve(s, SendRequest) == Send(s)
    ensures s.tasks[target].state == ReceiveWait <==> HeldAt(s, target, Receiving)
    ensures s.home[s.current] == NONE
  {
    ServesSend(s);
    SlotFinds(s, s.tasks[s.current].regs[0]);
    SlotIsTid(s.tasks[s.current].regs[0]);
    assert TaskOk(s, target);
    hide Inv, AtHome, ExitsOk, AsU32, SlotOf, Unnamed, StoredTid, Copied, MessagesOk, ParentOk, Send, Serve;
  }

  /** Any other send is accepted. A task that waits for a message gets it and is ready. */
  lemma {:induction false} SendReceived(s: State, target: nat)
    requires Busy(s) && Named(s, target, Calls(s)) && HeldAt(s, target, Receiving)
    ensures target != s.current && 0 <= s.tasks[target].priority < NUM_PRIORITIES
    ensures var c, s' := s.current, Serve(s, SendRequest);
      && PlaceOf(s', target) == OnReady(s.tasks[target].priority) && PlaceOf(s', c) == AwaitingReply
      && Behind(s, s', READY + s.tasks[target].priority, [target])
      && s'.hist.received[target] == s.hist.received[target] + [c]
  {
    SendGoes(s, target);
    SendTargetHome(s, target);
    hide Inv, AtHome, ExitsOk, TaskOk, AsU32, SlotOf, StoredTid, Copied, AsU64, AsI64, Serve;
  }

  /** Any other task finds the sender last in its mailbox; nobody else is moved. */
  lemma {:induction false} SendQueued(s: State, target: nat)
    requires Busy(s) && Named(s, target, Calls(s)) && target != s.current && !HeldAt(s, target, Receiving)
    ensures var c, s' := s.current, Serve(s, SendRequest);
      && PlaceOf(s', c) == InMailbox(target) && Behind(s, s', MAILBOX + target, [c])
      && s'.mem == s.mem && s'.hist.received == s.hist.received
      && forall i | 0 <= i < MAX_NUM_TASKS && i != c :: s'.tasks[i] == s.tasks[i] && s'.home[i] == s.home[i]
  {
    SendGoes(s, target);
    hide Inv, AtHome, ExitsOk, TaskOk, AsU32, SlotOf, StoredTid, Copied, AsU64, AsI64, Serve;
  }

  /** A reply makes both ready, the task answered before the task that answers. */
  lemma {:induction false} ReplyOrder(s: State, sender: nat)
    requires CanReply(s, sender)
    ensures var c, p, p', s' := s.current, s.tasks[sender].priority, s.tasks[s.current].priority,
      Serve(s, ReplyRequest);
      if p == p' then Behind(s, s', READY + p, [sender, c])
      else Behind(s, s', READY + p, [sender]) && Behind(s, s', READY + p', [c])
  {
    ServesReply(s);
    ReplyUnfolds(s, sender);
    hide Reply, Inv, AtHome, ExitsOk, TaskOk, SlotOf, Copied, ReplyLength, Serve;
  }

  /** A task is created exactly if its priority is one and there is a dead slot. */
  lemma {:induction false} CreateRefused(s: State)
    requires Busy(s)
    ensures Calls(s) >= NUM_PRIORITIES ==> Resumed(s, Serve(s, CreateRequest), -1)
    ensures Calls(s) < NUM_PRIORITIES && (forall i | 0 <= i < MAX_NUM_TASKS :: !s.reuse[i].free) ==>
      Resumed(s, Serve(s, CreateRequest), -2)
    ensures Calls(s) < NUM_PRIORITIES && (exists i :: 0 <= i < MAX_NUM_TASKS && s.reuse[i].free) ==> CanCreate(s)
  {
    ServesCreate(s);
    ResumeReturns(s, -1);
    ResumeReturns(s, -2);
    if i: nat :| i < MAX_NUM_TASKS && s.reuse[i].free {
      assert TaskOk(s, i);
    }
    if s.queues[FREE_LIST] != [] {
      FreeHead(s);
    }
    hide TaskOk, AsU32, ExitsOk, Serve, Resume, Resumed;
  }

  /** The new task lives in a slot that was dead, as a child of the caller with the priority
      and the entry point asked for; the caller learns its id, and is ready before it. */
  lemma {:induction false} CreateAccepted(s: State) returns (child: nat)
    requires CanCreate(s)
    ensures child < MAX_NUM_TASKS && s.reuse[child].free
    ensures var c, s' := s.current, Serve(s, CreateRequest);
      && Named(s', child, s'.tasks[c].regs[0])
      && s'.tasks[child].parentTid == s.tasks[c].tid
      && Me(s', child) in s'.hist.creator && s'.hist.creator[Me(s', child)] == Me(s, c)
      && s'.tasks[child].priority == Calls(s) && s'.tasks[child].regs[0] == s.tasks[c].regs[1]
      && Me(s', child) !in s.hist.exited
      && (if Calls(s) == s.tasks[c].priority then Behind(s, s', READY + Calls(s), [c, child])
          else Behind(s, s', READY + Calls(s), [child]) && Behind(s, s', READY + s.tasks[c].priority, [c]))
  {
    child := s.queues[FREE_LIST][0];
    ServesCreate(s);
    CreateKeeps(s);
    TidIsSlot(s.current);
    assert Me(Create(s), child) in s.hist.exited <==> Over(s, Me(Create(s), child));
    hide AtHome, ExitsOk, AsU32, SlotOf, MessagesOk, ParentOk, Serve;
  }

  // ----- Interrupts -----

  ghost function OfPriority(s: State, q: seq<nat>, p: int): seq<nat>
    requires Sized(s) && forall k | 0 <= k < |q| :: q[k] < MAX_NUM_TASKS
  {
    if q == [] then []
    else (if s.tasks[q[0]].priority == p then [q[0]] else []) + OfPriority(s, q[1..], p)
  }

  lemma {:induction false} OfPrioritySame(s: State, s': State, q: seq<nat>, p: int)
    requires Sized(s) && Sized(s') && forall k | 0 <= k < |q| :: q[k] < MAX_NUM_TASKS
    requires forall i | 0 <= i < MAX_NUM_TASKS :: s'.tasks[i].priority == s.tasks[i].priority
    ensures OfPriority(s', q, p) == OfPriority(s, q, p)
  {
    if q == [] {
    } else {
      OfPrioritySame(s, s', q[1..], p);
    }
  }

  /** What waking one task changes. */
  lemma {:induction false} WakeOneEffect(s: State, event: nat, v: int, p: nat)
    requires event < MAX_NUM_EVENTS && CanWakeOne(s, EVENT + event) && p < NUM_PRIORITIES
    requires 0 <= s.tasks[s.queues[EVENT + event][0]].priority < NUM_PRIORITIES
    ensures var i, s' := s.queues[EVENT + event][0], WakeOne(s, EVENT + event, v);
      && Sized(s') && s'.queues[EVENT + event] == s.queues[EVENT + event][1..]
      && Behind(s, s', READY + p, if s.tasks[i].priority == p then [i] else [])
      && s'.tasks == s.tasks[i := s.tasks[i].(state := Ready, regs := s.tasks[i].regs[0 := v])]
  {
    hide AtHome, ExitsOk, TaskOk;
  }

  /** An interrupt puts the tasks that wait for it behind their levels, in the order they
      came. */
  lemma {:induction false} WakeOrder(s: State, event: nat, v: int, p: nat)
    requires Inv(s) && event < MAX_NUM_EVENTS && p < NUM_PRIORITIES
    ensures CanWake(s, event) && Inv(WakeAll(s, event, v))
    ensures Behind(s, WakeAll(s, event, v), READY + p, OfPriority(s, s.queues[EVENT + event], p))
    decreases |s.queues[EVENT + event]|
  {
    assert Sized(s);
    hide Inv, TaskOk, WakeAll, WakeOne, CanWakeOne;
    WakeAllKeeps(s, event, v);
    WakeUnfolds(s, event, v);
    var q := s.queues[EVENT + event];
    if q == [] {
    } else {
      var s' := WakeOne(s, EVENT + event, v);
      WakeOneEffect(s, event, v, p);
      WakeOrder(s', event, v, p);
      hide Behind;
      OfPrioritySame(s, s', q[1..], p);
      var first := if s.tasks[q[0]].priority == p then [q[0]] else [];
      BehindTrans(s, s', WakeAll(s, event, v), READY + p, first, OfPriority(s, q[1..], p));
    }
  }

  /** Each of them gets the interrupt's value, and no other task changes. */
  lemma {:induction false} WakeResults(s: State, event: nat, v: int, i: nat)
    requires Inv(s) && event < MAX_NUM_EVENTS && i < MAX_NUM_TASKS
    ensures CanWake(s, event) && Inv(WakeAll(s, event, v))
    ensures WakeAll(s, event, v).tasks[i] ==
      if HeldAt(s, i, OnEvent(event)) then s.tasks[i].(state := Ready, regs := s.tasks[i].regs[0 := v]) else s.tasks[i]
    decreases |s.queues[EVENT + event]|
  {
    assert Sized(s) && NoRepeat(s.queues[EVENT + event]);
    hide Inv, TaskOk, WakeAll, WakeOne, CanWakeOne, Behind;
    WakeAllKeeps(s, event, v);
    WakeUnfolds(s, event, v);
    var q := s.queues[EVENT + event];
    if q == [] {
    } else {
      WakeOneEffect(s, event, v, 0);
      WakeResults(WakeOne(s, EVENT + event, v), event, v, i);
      assert i in q <==> i == q[0] || i in q[1..];
    }
  }
}
