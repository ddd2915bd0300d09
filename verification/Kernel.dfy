/** The kernel object: what `task_manager` and the dispatch loop of `kmain.cpp` hold, changed
    in place. Each call is proved to do what its step says, and to push a task only where no
    other container has hold of its link. */
module Kernel {
  import opened Containers
  import opened MachineInts
  import opened Wrappers
  import opened KernelSteps
  import opened KernelSafety

  class TaskManager {
    var tasks: seq<Task>
    var reuse: seq<Reuse>
    const pool: LinkPool
    const ready: PriorityQueue
    var mem: Memory
    var current: int
    ghost var hist: History

    ghost function View(): State
      reads this, pool
    {
      State(tasks, reuse, pool.contents, pool.home, mem, current, hist)
    }

    ghost predicate Wired()
      reads pool, ready
    {
      && ready.pool == pool && ready.base == READY && ready.priorities == NUM_PRIORITIES
      && ready.Valid() && |pool.queues| == NUM_QUEUES && |pool.next| == MAX_NUM_TASKS
    }

    ghost predicate Shape()
      reads this, pool, ready
    {
      Wired() && Sized(View())
    }

    ghost predicate Valid()
      reads this, pool, ready
    {
      Shape() && Inv(View())
    }

    ghost predicate Serving()
      reads this, pool, ready
    {
      Shape() && Busy(View())
    }

    /** Every slot starts on the free list, in order. */
    constructor (tasks: seq<Task>, mem: Memory)
      requires Raw(tasks)
      ensures Valid() && fresh(pool) && fresh(ready)
      ensures View() == Blank(tasks, mem)
    {
      this.tasks, this.mem, current := tasks, mem, NONE;
      reuse := seq(MAX_NUM_TASKS, _ => Reuse(0, 0, true));
      hist := Blank(tasks, mem).hist;
      var links := new LinkPool(MAX_NUM_TASKS, NUM_QUEUES);
      pool := links;
      ready := new PriorityQueue(links, READY, NUM_PRIORITIES);
      new;
      FillFreeList();
      assert pool.contents == Blank(tasks, mem).queues && pool.home == Blank(tasks, mem).home;
      BlankKeeps(tasks, mem);
    }

    // ----- The containers -----

    /** The constructor of `free_list`. */
    method FillFreeList()
      requires Shape() && forall q | 0 <= q < NUM_QUEUES :: pool.contents[q] == []
      requires forall k | 0 <= k < MAX_NUM_TASKS :: pool.home[k] == NONE
      modifies pool
      ensures Shape() && pool.contents[FREE_LIST] == seq(MAX_NUM_TASKS, k => k)
      ensures forall q | 0 <= q < NUM_QUEUES && q != FREE_LIST :: pool.contents[q] == []
      ensures forall k | 0 <= k < MAX_NUM_TASKS :: pool.home[k] == FREE_LIST
    {
      hide TaskManager.Wired;
      var i: nat := 0;
      while i < MAX_NUM_TASKS
        invariant 0 <= i <= MAX_NUM_TASKS && Shape()
        invariant pool.contents[FREE_LIST] == seq(i, k => k)
        invariant forall q | 0 <= q < NUM_QUEUES && q != FREE_LIST :: pool.contents[q] == []
        invariant forall k | 0 <= k < MAX_NUM_TASKS :: pool.home[k] == if k < i then FREE_LIST else NONE
      {
        PushTask(FREE_LIST, i);
        i := i + 1;
      }
    }

    method ReadyPushTask(i: nat)
      requires Shape() && i < MAX_NUM_TASKS && pool.home[i] == NONE && 0 <= tasks[i].priority < NUM_PRIORITIES
      modifies this, pool, ready
      ensures Shape() && View() == ReadyPush(old(View()), i)
    {
      hide AtHome, Threads, Order, Total;
      tasks := tasks[i := tasks[i].(state := Ready)];
      ready.Push(i, tasks[i].priority);
    }

    method PushTask(q: nat, i: nat)
      requires Shape() && q < NUM_QUEUES && !IsReadyQueue(q) && i < MAX_NUM_TASKS && pool.home[i] == NONE
      modifies pool
      ensures Shape() && View() == Enqueue(old(View()), q, i)
    {
      ghost var levels := ready.Levels();
      pool.Push(q, i);
      assert ready.Levels() == levels;
    }

    method PopTask(q: nat) returns (i: nat)
      requires Shape() && q < NUM_QUEUES && !IsReadyQueue(q) && pool.contents[q] != []
      modifies pool
      ensures i == old(pool.contents[q])[0] && i < MAX_NUM_TASKS && old(pool.home[i]) == q
      ensures Shape() && View() == Dequeue(old(View()), q)
    {
      ghost var levels := ready.Levels();
      i := pool.Pop(q);
      assert ready.Levels() == levels;
    }

    method QueueSize(q: nat) returns (n: nat)
      requires Shape() && q < NUM_QUEUES
      ensures n == |pool.contents[q]|
    {
      n := pool.Size(q);
    }

    method NumReady() returns (n: nat)
      requires Shape()
      ensures n == |Order(Levels(View()))|
    {
      TotalIsLength(ready.Levels());
      n := ready.size;
    }

    method PopReady() returns (i: nat)
      requires Shape() && Order(Levels(View())) != []
      modifies pool, ready
      ensures i == old(Order(Levels(View())))[0] && i < MAX_NUM_TASKS && READY <= old(pool.home[i]) < MAILBOX
      ensures old(pool.contents[pool.home[i]]) != [] && i == old(pool.contents[pool.home[i]])[0]
      ensures Shape() && View() == Dequeue(old(View()), old(pool.home[i]))
    {
      TotalIsLength(ready.Levels());
      i := ready.Pop();
    }

    method SetResult(i: nat, v: int)
      requires Shape() && i < MAX_NUM_TASKS
      modifies this`tasks
      ensures Shape() && View() == WithResult(old(View()), i, v)
    {
      tasks := tasks[i := tasks[i].(regs := tasks[i].regs[0 := v])];
    }

    /** The tail of most calls: the caller gets `v` and is ready again. */
    method Finish(v: int)
      requires Serving()
      modifies this, pool, ready
      ensures Valid() && View() == Resume(old(View()), v)
    {
      hide Inv, TaskOk, AtHome, Threads, TaskManager.Wired;
      ResumeKeeps(View(), v);
      CurrentHome(View());
      SetResult(current, v);
      ReadyPushTask(current);
      current := NONE;
    }

    /** `new_task` */
    method Allocate(parentTid: int, parentGen: nat, priority: nat, arg: int) returns (i: nat)
      requires Shape() && pool.contents[FREE_LIST] != []
      modifies this, pool
      ensures CanAllocate(old(View())) && i == old(pool.contents[FREE_LIST])[0]
      ensures Shape() && View() == NewTask(old(View()), parentTid, parentGen, priority, arg)
    {
      hide TaskManager.Wired, SlotOf;
      i := PopTask(FREE_LIST);
      tasks := tasks[i := Task(i + STARTING_TASK_TID, parentTid, priority, Ready, tasks[i].regs[0 := arg])];
      reuse := reuse[i := Reuse(parentGen, reuse[i].gen + 1, false)];
      if parentTid != KERNEL_TID {
        ghost var parent := Incarnation(SlotOf(parentTid), parentGen);
        hist := hist.(creator := hist.creator[Incarnation(i, reuse[i].gen) := parent]);
      }
    }

    /** The first task, made by the kernel itself. */
    method StartFirstTask(arg: int)
      requires Valid() && View() == Blank(tasks, mem)
      modifies this, pool, ready
      ensures Valid() && View() == Boot(old(tasks), old(mem), arg)
    {
      hide Inv, TaskOk, AtHome, Threads, TaskManager.Wired;
      BootKeeps(tasks, mem, arg);
      BlankKeeps(tasks, mem);
      var first := Allocate(KERNEL_TID, 1, PRIORITY_L2, arg);
      ReadyPushTask(first);
    }

    // ----- The calls -----

    /** `get_task` */
    method GetTask() returns (found: bool)
      requires Valid() && current == NONE
      modifies this, pool, ready
      ensures found <==> Order(Levels(old(View()))) != []
      ensures !found ==> Valid() && View() == old(View())
      ensures found ==> CanDispatch(old(View())) && Serving() && View() == Dispatch(old(View()))
    {
      hide Inv, TaskOk, AtHome, Threads, TaskManager.Wired, Order, Total;
      var size := NumReady();
      if size == 0 {
        return false;
      }
      ReadyCanDispatch(View());
      DispatchKeeps(View());
      current := PopReady();
      tasks := tasks[current := tasks[current].(state := Active)];
      return true;
    }

    method KCreate()
      requires Serving()
      modifies this, pool, ready
      ensures Create.requires(old(View())) && Valid() && View() == Create(old(View()))
    {
      hide Inv, TaskOk, AtHome, Threads, TaskManager.Wired, AsU32;
      CreateKeeps(View());
      CurrentHome(View());
      ghost var was := View();
      var c, priority := current, AsU32(tasks[current].regs[0]);
      if priority >= NUM_PRIORITIES {
        Finish(-1);
        return;
      }
      var left := QueueSize(FREE_LIST);
      if left == 0 {
        Finish(-2);
        return;
      }
      FreeHead(View());
      var created := Allocate(tasks[c].tid, reuse[c].gen, priority, tasks[c].regs[1]);
      SetResult(c, tasks[created].tid);
      ReadyPushTask(c);
      current := NONE;
      ReadyPushTask(created);
    }

    method KMyTid()
      requires Serving()
      modifies this, pool, ready
      ensures Valid() && View() == MyTid(old(View()))
    {
      hide Inv, TaskOk, AtHome, Threads, TaskManager.Wired;
      Finish(tasks[current].tid);
    }

    method KMyParentTid()
      requires Serving()
      modifies this, pool, ready
      ensures MyParentTid.requires(old(View())) && Valid() && View() == MyParentTid(old(View()))
    {
      hide Inv, TaskOk, AtHome, Threads, TaskManager.Wired;
      MyParentTidKeeps(View());
      var parentTid := tasks[current].parentTid;
      if parentTid != KERNEL_TID {
        var parent := parentTid - STARTING_TASK_TID;
        if reuse[parent].free || reuse[parent].gen != reuse[current].parentGen {
          parentTid := parentTid + EXITED_PARENT_MASK;
        }
      }
      Finish(parentTid);
    }

    method KYield()
      requires Serving()
      modifies this, pool, ready
      ensures Valid() && View() == Yield(old(View()))
    {
      hide Inv, TaskOk, AtHome, Threads, TaskManager.Wired;
      YieldKeeps(View());
      CurrentHome(View());
      ReadyPushTask(current);
      current := NONE;
    }

    method KExit()
      requires Serving()
      modifies this, pool, ready
      ensures Valid() && View() == Exit(old(View()))
    {
      hide Inv, TaskOk, AtHome, Threads, TaskManager.Wired;
      ExitKeeps(View());
      CurrentHome(View());
      reuse := reuse[current := reuse[current].(free := true)];
      tasks := tasks[current := tasks[current].(state := Free)];
      hist := hist.(exited := hist.exited + {Incarnation(current, reuse[current].gen)});
      PushTask(FREE_LIST, current);
      current := NONE;
    }

    /** `send_message` */
    method Deliver(sender: nat, receiver: nat)
      requires Shape() && sender < MAX_NUM_TASKS && receiver < MAX_NUM_TASKS
      modifies this`tasks, this`mem, this`hist
      ensures Shape() && View() == SendMessage(old(View()), sender, receiver)
    {
      hide Threads, AtHome;
      var from, to := tasks[sender], tasks[receiver];
      var srclen, destlen := AsU64(from.regs[2]), AsU64(from.regs[2]);
      var n := if srclen > destlen then destlen else srclen;
      mem := StoredTid(Copied(mem, to.regs[1], from.regs[1], n), to.regs[0], from.tid);
      SetResult(receiver, AsI64(n));
      tasks := tasks[sender := tasks[sender].(state := ReplyWait)];
      hist := hist.(received := hist.received[receiver := hist.received[receiver] + [sender]]);
    }

    method KSend()
      requires Serving()
      modifies this, pool, ready
      ensures Send.requires(old(View())) && Valid() && View() == Send(old(View()))
    {
      hide Inv, TaskOk, AtHome, Threads, TaskManager.Wired, AsU32, SlotOf;
      SendKeeps(View());
      CurrentHome(View());
      ghost var was := View();
      var c, targetTid := current, AsU32(tasks[current].regs[0]);
      if targetTid == tasks[c].tid {
        Finish(-2);
        return;
      }
      var target := SlotOf(tasks[c].regs[0]);
      if target >= MAX_NUM_TASKS || reuse[target].free {
        Finish(-1);
        return;
      }
      SlotIsTid(tasks[c].regs[0]);
      SendTargetHome(was, target);
      hist := Accepted(View(), c, target).hist;
      if tasks[target].state == ReceiveWait {
        Deliver(c, target);
        ReadyPushTask(target);
        current := NONE;
        return;
      }
      tasks := tasks[c := tasks[c].(state := SendWait)];
      PushTask(MAILBOX + target, c);
      current := NONE;
    }

    method KReceive()
      requires Serving()
      modifies this, pool, ready
      ensures Receive.requires(old(View())) && Valid() && View() == Receive(old(View()))
    {
      hide Inv, TaskOk, AtHome, Threads, TaskManager.Wired;
      ReceiveKeeps(View());
      CurrentHome(View());
      var c := current;
      var waiting := QueueSize(MAILBOX + c);
      if waiting > 0 {
        BoxHead(View());
        var sender := PopTask(MAILBOX + c);
        Deliver(sender, c);
        ReadyPushTask(c);
        current := NONE;
        return;
      }
      tasks := tasks[c := tasks[c].(state := ReceiveWait)];
      current := NONE;
    }

    /** `reply_message` */
    method DeliverReply(sender: nat)
      requires Shape() && Running(View()) && sender < MAX_NUM_TASKS
      modifies this`tasks, this`mem, this`hist
      ensures Shape() && View() == ReplyMessage(old(View()), sender)
    {
      hide TaskManager.Wired, ReplyLength, AsI64, Copied;
      var me, to := tasks[current], tasks[sender];
      var n := ReplyLength(me.regs[2], to.regs[4]);
      mem := Copied(mem, to.regs[3], me.regs[1], n);
      SetResult(current, AsI64(n));
      SetResult(sender, AsI64(n));
      hist := hist.(replies := hist.replies[sender := hist.replies[sender] + 1]);
    }

    method KReply()
      requires Serving()
      modifies this, pool, ready
      ensures Reply.requires(old(View())) && Valid() && View() == Reply(old(View()))
    {
      hide Inv, TaskOk, AtHome, Threads, TaskManager.Wired, SlotOf, AsU64, AsI64;
      ReplyKeeps(View());
      CurrentHome(View());
      ghost var was := View();
      var c := current;
      var sender := SlotOf(tasks[c].regs[0]);
      if sender >= MAX_NUM_TASKS || reuse[sender].free {
        Finish(-1);
        return;
      }
      if tasks[sender].state != ReplyWait {
        Finish(-2);
        return;
      }
      ReplyUnfolds(was, sender);
      DeliverReply(sender);
      ReadyPushTask(sender);
      ReadyPushTask(c);
      current := NONE;
    }

    method KAwaitEvent()
      requires Serving()
      modifies this, pool, ready
      ensures Valid() && View() == AwaitEvent(old(View()))
    {
      hide Inv, TaskOk, AtHome, Threads, TaskManager.Wired, AsU32;
      AwaitEventKeeps(View());
      CurrentHome(View());
      var event := AsU32(tasks[current].regs[0]);
      if event < MAX_NUM_EVENTS {
        PushTask(EVENT + event, current);
        current := NONE;
      } else {
        Finish(-1);
      }
    }

    method WakeUpTasksOnEvent(event: nat, v: int)
      requires Valid() && event < MAX_NUM_EVENTS
      modifies this, pool, ready
      ensures CanWake(old(View()), event) && Valid() && View() == WakeAll(old(View()), event, v)
    {
      hide Inv, TaskOk, AtHome, Threads, TaskManager.Wired;
      ghost var all := View();
      WakeAllKeeps(View(), event, v);
      var waiting := QueueSize(EVENT + event);
      while waiting > 0
        invariant Valid() && CanWake(View(), event) && CanWake(all, event)
        invariant WakeAll(all, event, v) == WakeAll(View(), event, v)
        invariant waiting == |pool.contents[EVENT + event]|
      {
        ghost var was := View();
        WakeOneKeeps(was, EVENT + event, v);
        WakeAllKeeps(WakeOne(was, EVENT + event, v), event, v);
        var task := PopTask(EVENT + event);
        SetResult(task, v);
        ReadyPushTask(task);
        assert View() == WakeOne(was, EVENT + event, v);
        waiting := QueueSize(EVENT + event);
      }
    }

    // ----- The dispatch loop -----

    /** One pass through the `switch` of the loop, for the task that just ran. */
    method Handle(input: Input)
      requires Serving() && ValidInput(input)
      modifies this, pool, ready
      ensures Busy(UserRuns(old(View()), input.regs, input.mem))
      ensures Valid() && View() == Serve(UserRuns(old(View()), input.regs, input.mem), input.request)
    {
      hide Inv, TaskOk, AtHome, Threads, TaskManager.Wired;
      UserRunsKeeps(View(), input.regs, input.mem);
      tasks := tasks[current := tasks[current].(regs := input.regs)];
      mem := input.mem;
      ghost var user := View();
      match input.request {
        case CreateRequest => KCreate();
        case MyTidRequest => KMyTid();
        case MyParentTidRequest => KMyParentTid();
        case ExitRequest => KExit();
        case SendRequest => KSend();
        case ReceiveRequest => KReceive();
        case ReplyRequest => KReply();
        case AwaitEventRequest => KAwaitEvent();
        case OtherRequest(None) => KYield();
        case OtherRequest(Some(v)) => Finish(v);
        case Interrupt(None) => KYield();
        case Interrupt(Some(wake)) =>
          WakeAllKeeps(user, wake.event, wake.result);
          WakeUpTasksOnEvent(wake.event, wake.result);
          BusyAgain(user, View());
          KYield();
      }
    }

    /** The loop of `main`: it goes on until nothing is ready (or the inputs end). */
    method Loop(inputs: seq<Input>)
      requires Valid() && current == NONE && forall k | 0 <= k < |inputs| :: ValidInput(inputs[k])
      modifies this, pool, ready
      ensures Valid() && current == NONE && View() == Run(old(View()), inputs)
    {
      hide Inv, TaskOk, AtHome, Threads, TaskManager.Wired, Run, Turn, Order, Levels, ValidInput;
      ghost var start := View();
      var k := 0;
      assert inputs[0..] == inputs;
      while k < |inputs|
        invariant 0 <= k <= |inputs| && Valid() && current == NONE && Idle(start)
        invariant Run(start, inputs) == Run(View(), inputs[k..])
      {
        ghost var s := View();
        RunStep(s, inputs, k);
        var found := GetTask();
        if !found {
          return;
        }
        Handle(inputs[k]);
        TurnServed(s, inputs[k]);
        k := k + 1;
      }
      RunNothing(View(), inputs);
    }
  }

  lemma {:induction false} RunStep(s: State, inputs: seq<Input>, k: nat)
    requires Idle(s) && k < |inputs| && forall n | 0 <= n < |inputs| :: ValidInput(inputs[n])
    ensures Run(s, inputs[k..]) ==
            if Order(Levels(s)) == [] then s else Run(Turn(s, inputs[k]), inputs[k + 1..])
  {
    hide Inv, Turn, Order, Levels, ValidInput;
    assert inputs[k..][1..] == inputs[k + 1..];
  }

  lemma {:induction false} RunNothing(s: State, inputs: seq<Input>)
    requires Idle(s)
    ensures Run(s, inputs[|inputs|..]) == s
  {
    hide Inv;
  }

  lemma {:induction false} TurnServed(s: State, input: Input)
    requires Idle(s) && Order(Levels(s)) != [] && ValidInput(input)
    ensures CanDispatch(s) && Busy(Dispatch(s)) && Busy(UserRuns(Dispatch(s), input.regs, input.mem))
    ensures Turn(s, input) == Serve(UserRuns(Dispatch(s), input.regs, input.mem), input.request)
  {
    ReadyCanDispatch(s);
    DispatchKeeps(s);
    UserRunsKeeps(Dispatch(s), input.regs, input.mem);
    hide Inv, TaskOk, Serve, Dispatch, UserRuns, Order, Levels;
  }
}
