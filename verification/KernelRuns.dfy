/** What holds from one turn of the dispatch loop to the next, and so over runs of it: who
    may send, how long a ready task waits, and where a message can end up. */
module KernelRuns {
  import opened Containers
  import opened MachineInts
  import opened KernelSteps
  import opened KernelSafety

  ghost predicate ValidInputs(inputs: seq<Input>) {
    forall k | 0 <= k < |inputs| :: ValidInput(inputs[k])
  }

  // ----- What one turn changes -----

  /** The task that the next turn runs. */
  ghost function NextTask(s: State): nat
    requires |s.queues| == NUM_QUEUES && Order(Levels(s)) != []
  {
    Order(Levels(s))[0]
  }

  ghost function Entered(s: State, input: Input): (user: State)
    requires Idle(s) && Order(Levels(s)) != [] && ValidInput(input)
    ensures Busy(user)
  {
    ReadyCanDispatch(s);
    DispatchKeeps(s);
    UserRunsKeeps(Dispatch(s), input.regs, input.mem);
    UserRuns(Dispatch(s), input.regs, input.mem)
  }

  /** The first ready task is off its queue and has run; now the kernel serves it. */
  lemma {:induction false} EnteredEffect(s: State, input: Input)
    requires Idle(s) && Order(Levels(s)) != [] && ValidInput(input)
    ensures var x, user := NextTask(s), Entered(s, input);
      && user.current == x < MAX_NUM_TASKS && user.hist == s.hist && user.mem == input.mem && user.reuse == s.reuse
        && IsReadyQueue(s.home[x])
      && s.queues[s.home[x]] != [] && s.queues[s.home[x]][0] == x
      && user.queues == s.queues[s.home[x] := s.queues[s.home[x]][1..]]
      && user.tasks == s.tasks[x := s.tasks[x].(state := Active, regs := input.regs)]
    ensures Turn(s, input) == Serve(Entered(s, input), input.request)
  {
    ReadyCanDispatch(s);
    hide Inv, TaskOk, Serve, Order;
  }

  /** A turn only adds to the ready queues it did not take its task from, and to what is left
      of that one. */
  lemma {:induction false} TurnReady(s: State, input: Input, p: nat)
    requires Idle(s) && Order(Levels(s)) != [] && ValidInput(input) && p < NUM_PRIORITIES
    ensures Entered(s, input).queues[READY + p] <= Turn(s, input).queues[READY + p]
  {
    EnteredEffect(s, input);
    ServeGrows(Entered(s, input), input.request);
    assert ReadyGrowsAt(Entered(s, input), Turn(s, input), p);
    hide Serve, Later, Turn, Inv, TaskOk, Entered;
  }

  /** Only the task that a turn runs can send in it. */
  lemma {:induction false} TurnSends(s: State, input: Input, i: nat)
    requires Idle(s) && Order(Levels(s)) != [] && ValidInput(input) && i < MAX_NUM_TASKS && i != NextTask(s)
    ensures Turn(s, input).hist.sends[i] == s.hist.sends[i]
  {
    EnteredEffect(s, input);
    hide Serve, Later, Turn, Inv, TaskOk, Entered;
    ServeGrows(Entered(s, input), input.request);
  }

  // ----- A task that waits for a reply does not send -----

  /** What the servers rely on. A task that has sent and is not answered cannot send: not in
      the next turn, whatever that turn does. */
  lemma {:induction false} WaitingDoesNotSend(s: State, input: Input, i: nat)
    requires Idle(s) && Order(Levels(s)) != [] && ValidInput(input) && i < MAX_NUM_TASKS
    requires AwaitsReply(s, i)
    ensures Turn(s, input).hist.sends[i] == s.hist.sends[i]
  {
    EnteredEffect(s, input);
    hide Inv, TaskOk, Turn, Serve, Entered;
    TurnSends(s, input, i);
  }

  /** And not in any run, until it has been answered once more. */
  lemma {:induction false} SilentUntilAnswered(s: State, inputs: seq<Input>, i: nat)
    requires Idle(s) && ValidInputs(inputs) && i < MAX_NUM_TASKS && AwaitsReply(s, i)
    requires Run(s, inputs).hist.replies[i] == s.hist.replies[i]
    ensures Run(s, inputs).hist.sends[i] == s.hist.sends[i] && AwaitsReply(Run(s, inputs), i)
  {
    SafeOnEveryRun(s, inputs);
    assert TaskOk(s, i) && TaskOk(Run(s, inputs), i);
    hide Run, SlotOk, ParentOk, AtHome, ExitsOk, AwaitsReply;
  }

  // ----- How long a ready task waits -----

  /** Nothing more urgent than `p` is ready. */
  ghost predicate NothingAbove(s: State, p: nat)
    requires |s.queues| == NUM_QUEUES
  {
    forall q | p < q < NUM_PRIORITIES :: Levels(s)[q] == []
  }

  lemma {:induction false} HeadIsNext(s: State, p: nat)
    requires |s.queues| == NUM_QUEUES && p < NUM_PRIORITIES && NothingAbove(s, p) && s.queues[READY + p] != []
    ensures Order(Levels(s)) != [] && NextTask(s) == s.queues[READY + p][0]
  {
    assert Levels(s)[p] == s.queues[READY + p];
    hide Order;
    OrderPop(Levels(s), p);
  }

  lemma {:induction false} TurnShifts(s: State, input: Input, p: nat)
    requires Idle(s) && ValidInput(input) && p < NUM_PRIORITIES && NothingAbove(s, p) && s.queues[READY + p] != []
    ensures Order(Levels(s)) != [] && s.queues[READY + p][1..] <= Turn(s, input).queues[READY + p]
  {
    HeadIsNext(s, p);
    EnteredEffect(s, input);
    assert s.home[s.queues[READY + p][0]] == READY + p;
    hide Inv, TaskOk, Turn, Entered, Order, Serve;
    TurnReady(s, input, p);
  }

  /** Nothing more urgent than `p` is ready at any turn of the run, or after it. */
  ghost predicate CalmRun(s: State, inputs: seq<Input>, p: nat)
    requires Idle(s) && ValidInputs(inputs)
    decreases |inputs|
  {
    NothingAbove(s, p) && (inputs != [] && Order(Levels(s)) != [] ==> CalmRun(Turn(s, inputs[0]), inputs[1..], p))
  }

  /** A task with as many ahead of it in its level as there are turns is the one that runs
      next, whatever those turns did, if nothing more urgent was ready at any of them. */
  lemma {:induction false} RunsAfter(s: State, inputs: seq<Input>, p: nat)
    requires Idle(s) && ValidInputs(inputs) && p < NUM_PRIORITIES && |inputs| < |s.queues[READY + p]|
    requires CalmRun(s, inputs, p)
    ensures Order(Levels(Run(s, inputs))) != [] && NextTask(Run(s, inputs)) == s.queues[READY + p][|inputs|]
    decreases |inputs|
  {
    assert Sized(s);
    hide Turn, Order, Inv, NothingAbove, Levels, ValidInput;
    if inputs == [] {
      HeadIsNext(s, p);
    } else {
      TurnShifts(s, inputs[0], p);
      RunsAfter(Turn(s, inputs[0]), inputs[1..], p);
    }
  }

  // ----- A message longer than the room for it -----

  /** Which bytes a send changes: the id cell and as much memory from the receiver's buffer on
      as the message is long, be the buffer that large or not. */
  lemma {:induction false} SendWrites(s: State, target: nat, a: int)
    requires CanSend(s, target) && HeldAt(s, target, Receiving)
    ensures var from, to := s.tasks[s.current].regs, s.tasks[target].regs;
      var n, room := AsU64(from[2]), AsU64(to[2]);
      && (!(to[0] <= a < to[0] + 4) && to[1] <= a < to[1] + n ==> Send(s).mem(a) == s.mem(from[1] + (a - to[1])))
      && (!(to[0] <= a < to[0] + 4) && Send(s).mem(a) != s.mem(a) ==> to[1] <= a < to[1] + n)
      && (n <= room && !(to[0] <= a < to[0] + 4) && Send(s).mem(a) != s.mem(a) ==> to[1] <= a < to[1] + room)
  {
    hide Send, Inv, TaskOk, SlotOf, Prioritised;
    SendDelivered(s, target, a);
  }

  function OneByte(at: int, a: int): int {
    if a == at then 1 else 0
  }

  function Call(a: int, b: int, c: int): (regs: seq<int>)
    ensures |regs| == NUM_REGISTERS && regs[0] == a && regs[1] == b && regs[2] == c
  {
    seq(NUM_REGISTERS, i => if i == 0 then a else if i == 1 then b else if i == 2 then c else 0)
  }

  /** Only tasks of priority `PRIORITY_L2` are ready, those listed; task 0 is one of the living. */
  ghost predicate Stage(s: State, ready: seq<nat>) {
    && Idle(s) && s.queues[READY + PRIORITY_L2] == ready
    && (forall p: nat | p < NUM_PRIORITIES && p != PRIORITY_L2 :: Levels(s)[p] == [])
    && s.queues[MAILBOX] == [] && !s.reuse[0].free
    && s.tasks[0].tid == 2 && s.tasks[0].priority == PRIORITY_L2
  }

  /** The first task is ready, the kernel's own child with the entry point it was given. */
  lemma {:induction false} Booted(tasks: seq<Task>, mem: Memory, arg: int)
    requires Raw(tasks)
    ensures var t := Boot(tasks, mem, arg).tasks[0]; t.parentTid == KERNEL_TID && t.regs[0] == arg
    ensures var s := Boot(tasks, mem, arg); Stage(s, [0]) && s.queues[FREE_LIST] != [] && s.queues[FREE_LIST][0] == 1
  {
    BootKeeps(tasks, mem, arg);
    hide Inv, TaskOk;
  }

  lemma {:induction false} StageNext(s: State, ready: seq<nat>)
    requires Stage(s, ready) && ready != []
    ensures Order(Levels(s)) != [] && NextTask(s) == ready[0] && s.home[ready[0]] == READY + PRIORITY_L2
  {
    assert NothingAbove(s, PRIORITY_L2);
    HeadIsNext(s, PRIORITY_L2);
    hide Order, Levels, TaskOk;
  }

  /** Task 0 creates task 1. */
  lemma {:induction false} ThenCreates(s: State, mem: Memory)
    requires Stage(s, [0]) && s.queues[FREE_LIST] != [] && s.queues[FREE_LIST][0] == 1
    ensures Order(Levels(s)) != []
    ensures var s' := Turn(s, Input(Call(PRIORITY_L2, 0, 0), mem, CreateRequest));
      Stage(s', [0, 1]) && s'.tasks[1].tid == 3
  {
    StageNext(s, [0]);
    var input := Input(Call(PRIORITY_L2, 0, 0), mem, CreateRequest);
    EnteredEffect(s, input);
    CreateKeeps(Entered(s, input));
    assert Turn(s, input) == Create(Entered(s, input));
    hide Inv, TaskOk, Turn, Entered, Serve, Order, Call;
  }

  /** Task 0 waits for a message, with no room for it. */
  lemma {:induction false} ThenReceives(s: State, mem: Memory)
    requires Stage(s, [0, 1])
    ensures Order(Levels(s)) != []
    ensures var s' := Turn(s, Input(Call(100, 0, 0), mem, ReceiveRequest));
      && Stage(s', [1]) && s'.tasks[1] == s.tasks[1]
      && s'.tasks[0].state == ReceiveWait && s'.tasks[0].regs == Call(100, 0, 0)
  {
    StageNext(s, [0, 1]);
    var input := Input(Call(100, 0, 0), mem, ReceiveRequest);
    EnteredEffect(s, input);
    ReceiveKeeps(Entered(s, input));
    assert Turn(s, input) == Receive(Entered(s, input));
    hide Inv, TaskOk, Turn, Entered, Serve, Order, Call;
  }

  lemma {:induction false} RunTwo(s: State, a: Input, b: Input)
    requires Idle(s) && ValidInput(a) && ValidInput(b) && Order(Levels(s)) != [] && Order(Levels(Turn(s, a))) != []
    ensures ValidInputs([a, b]) && Run(s, [a, b]) == Turn(Turn(s, a), b)
  {
    hide Turn, Order, Levels, Inv, Idle, ValidInput;
    var s1 := Turn(s, a);
    assert [a, b][1..] == [b] && [b][1..] == [];
    assert Run(s1, [b]) == Run(Turn(s1, b), [b][1..]);
    assert Run(s, [a, b]) == Run(s1, [a, b][1..]);
  }

  /** A run from boot after which task 1 sends one byte to task 0, which has no room for any:
      the byte is written all the same, at address 0, where task 0's buffer would begin. */
  lemma {:induction false} MessageOverruns(tasks: seq<Task>, mem: Memory, arg: int)
    returns (inputs: seq<Input>, s: State, sending: Input)
    requires Raw(tasks)
    ensures Idle(Boot(tasks, mem, arg)) && ValidInputs(inputs) && s == Run(Boot(tasks, mem, arg), inputs)
    ensures Idle(s) && Order(Levels(s)) != [] && ValidInput(sending) && sending.request == SendRequest
    ensures var user := Entered(s, sending);
      && CanSend(user, 0) && HeldAt(user, 0, Receiving)
      && user.tasks[0].regs[0] == 100 && user.tasks[0].regs[1] == 0 && AsU64(user.tasks[0].regs[2]) == 0
      && user.mem(0) == 0 && Turn(s, sending).mem(0) == 1
  {
    hide Turn, Entered, Inv, TaskOk, Order, Levels, Boot, Call, CanSend, HeldAt;
    var create, receive := Input(Call(PRIORITY_L2, 0, 0), mem, CreateRequest),
      Input(Call(100, 0, 0), mem, ReceiveRequest);
    Booted(tasks, mem, arg);
    ThenCreates(Boot(tasks, mem, arg), mem);
    ThenReceives(Turn(Boot(tasks, mem, arg), create), mem);
    inputs := [create, receive];
    RunTwo(Boot(tasks, mem, arg), create, receive);
    s := Run(Boot(tasks, mem, arg), inputs);
    sending := Input(Call(2, 50, 1), a => OneByte(50, a), SendRequest);
    LastSends(s, sending);
  }

  lemma {:induction false} LastEnters(s: State, sending: Input)
    requires Stage(s, [1]) && ValidInput(sending)
    ensures Order(Levels(s)) != []
    ensures var user := Entered(s, sending);
      && user.current == 1 && user.tasks[1].regs == sending.regs && user.tasks[0] == s.tasks[0]
      && user.mem == sending.mem && user.reuse == s.reuse && Turn(s, sending) == Serve(user, sending.request)
  {
    StageNext(s, [1]);
    EnteredEffect(s, sending);
    hide Inv, TaskOk, Turn, Entered, Serve, Order;
  }

  lemma {:induction false} SendsToFirst(user: State)
    requires Busy(user) && user.current == 1 && user.tasks[1].regs == Call(2, 50, 1) && !user.reuse[0].free
    ensures CanSend(user, 0) && Serve(user, SendRequest) == Send(user)
    ensures user.tasks[0].state == ReceiveWait ==> HeldAt(user, 0, Receiving)
  {
    PrioritiesOk(user);
    assert TaskOk(user, 0);
    ServesSend(user);
    hide Send, Serve, AtHome, ExitsOk, MessagesOk, ParentOk;
  }

  lemma {:induction false} LastSends(s: State, sending: Input)
    requires Stage(s, [1]) && s.tasks[0].state == ReceiveWait && s.tasks[0].regs == Call(100, 0, 0)
    requires sending == Input(Call(2, 50, 1), sending.mem, SendRequest) && sending.mem(50) == 1
    ensures Order(Levels(s)) != [] && CanSend(Entered(s, sending), 0) && HeldAt(Entered(s, sending), 0, Receiving)
    ensures Entered(s, sending).mem == sending.mem && Entered(s, sending).tasks[0] == s.tasks[0]
    ensures Turn(s, sending).mem(0) == 1
  {
    LastEnters(s, sending);
    hide Inv, TaskOk, Turn, Entered, Serve, Order, Send, CanSend, HeldAt;
    SendsToFirst(Entered(s, sending));
    SendWrites(Entered(s, sending), 0, 0);
  }
}
