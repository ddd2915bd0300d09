/** What the kernel's tasking (`kern/tasking.cpp`) and its dispatch loop (`kmain.cpp`) do to
    the state of the machine, call by call, as functions of that state. */
module KernelSteps {
  import opened Containers
  import opened MachineInts
  import opened Wrappers

  const MAX_NUM_TASKS: nat := 50
  const NUM_PRIORITIES: nat := 12
  const MAX_NUM_EVENTS: nat := 6
  const KERNEL_TID: int := 1
  const STARTING_TASK_TID: int := 2
  const PRIORITY_L2: nat := 9
  const EXITED_PARENT_MASK: int := 0x8000_0000
  const NUM_REGISTERS: nat := 31

  // The queues: the free list, one ready queue a priority, one mailbox a slot, one an event.
  const FREE_LIST: nat := 0
  const READY: nat := 1
  const MAILBOX: nat := READY + NUM_PRIORITIES
  const EVENT: nat := MAILBOX + MAX_NUM_TASKS
  const NUM_QUEUES: nat := EVENT + MAX_NUM_EVENTS

  datatype TaskState = Free | Active | Ready | SendWait | ReceiveWait | ReplyWait

  datatype Task = Task(tid: int, parentTid: int, priority: int, state: TaskState, regs: seq<int>)

  datatype Reuse = Reuse(parentGen: nat, gen: nat, free: bool)

  /** One life of a task in a slot. */
  datatype Incarnation = Incarnation(slot: nat, gen: nat)

  type Memory = int -> int

  /** The slot of a task id; ids that are too small wrap around to no slot at all. */
  function SlotOf(tid: int): nat {
    AsU32(AsU32(tid) - STARTING_TASK_TID)
  }

  // ----- User memory -----

  function CopiedByte(mem: Memory, dest: int, src: int, n: nat, a: int): int {
    if dest <= a < dest + n then mem(src + (a - dest)) else mem(a)
  }

  function Copied(mem: Memory, dest: int, src: int, n: nat): Memory {
    a => CopiedByte(mem, dest, src, n, a)
  }

  /** A task id stored as four bytes, least significant first. */
  function StoredByte(mem: Memory, p: int, u: nat, a: int): int {
    if a == p then u % 0x100
    else if a == p + 1 then u / 0x100 % 0x100
    else if a == p + 2 then u / 0x1_0000 % 0x100
    else if a == p + 3 then u / 0x100_0000 % 0x100
    else mem(a)
  }

  function StoredTid(mem: Memory, p: int, tid: int): Memory {
    a => StoredByte(mem, p, AsU32(tid), a)
  }

  // ----- The state -----

  /** What has happened so far, kept to state what the kernel promises over whole runs. */
  datatype History = History(
    sent: seq<seq<nat>>,      // to each slot, the senders accepted, in order
    received: seq<seq<nat>>,  // by each slot, the senders received, in order
    sends: seq<nat>,          // by each slot, how many sends were accepted
    replies: seq<nat>,        // to each slot, how many replies were delivered
    exited: set<Incarnation>,
    creator: map<Incarnation, Incarnation>)

  datatype State = State(
    tasks: seq<Task>, reuse: seq<Reuse>, queues: seq<seq<nat>>, home: seq<int>,
    mem: Memory, current: int, hist: History)

  ghost predicate Sized(s: State) {
    && |s.tasks| == |s.reuse| == |s.home| == MAX_NUM_TASKS
    && |s.queues| == NUM_QUEUES
    && NONE <= s.current < MAX_NUM_TASKS
    && |s.hist.sent| == |s.hist.received| == |s.hist.sends| == |s.hist.replies| == MAX_NUM_TASKS
    && forall i | 0 <= i < MAX_NUM_TASKS :: |s.tasks[i].regs| == NUM_REGISTERS
  }

  /** Every task has a ready queue to go to. */
  ghost predicate Prioritised(s: State)
    requires Sized(s)
  {
    forall i | 0 <= i < MAX_NUM_TASKS && !s.reuse[i].free :: 0 <= s.tasks[i].priority < NUM_PRIORITIES
  }

  ghost predicate Running(s: State) {
    Sized(s) && s.current != NONE && 0 <= s.tasks[s.current].priority < NUM_PRIORITIES
  }

  function Enqueue(s: State, q: nat, i: nat): State
    requires q < |s.queues| && i < |s.home|
  {
    s.(queues := s.queues[q := s.queues[q] + [i]], home := s.home[i := q])
  }

  function Dequeue(s: State, q: nat): State
    requires q < |s.queues| && s.queues[q] != [] && s.queues[q][0] < |s.home|
  {
    s.(queues := s.queues[q := s.queues[q][1..]], home := s.home[s.queues[q][0] := NONE])
  }

  function WithState(s: State, i: nat, state: TaskState): State
    requires i < |s.tasks|
  {
    s.(tasks := s.tasks[i := s.tasks[i].(state := state)])
  }

  function WithResult(s: State, i: nat, v: int): State
    requires i < |s.tasks| && |s.tasks[i].regs| > 0
  {
    s.(tasks := s.tasks[i := s.tasks[i].(regs := s.tasks[i].regs[0 := v])])
  }

  /** `ready_push` */
  function ReadyPush(s: State, i: nat): State
    requires i < |s.tasks| == |s.home| && |s.queues| == NUM_QUEUES && 0 <= s.tasks[i].priority < NUM_PRIORITIES
  {
    Enqueue(WithState(s, i, Ready), READY + s.tasks[i].priority, i)
  }

  /** The current task gets `v` from its call and may run again. */
  function Resume(s: State, v: int): State
    requires Running(s)
  {
    ReadyPush(WithResult(s, s.current, v), s.current).(current := NONE)
  }

  function Levels(s: State): seq<seq<nat>>
    requires |s.queues| == NUM_QUEUES
  {
    s.queues[READY..MAILBOX]
  }

  // ----- The calls -----

  ghost predicate CanDispatch(s: State) {
    Sized(s) && Order(Levels(s)) != [] &&
    var x := Order(Levels(s))[0];
    x < MAX_NUM_TASKS && READY <= s.home[x] < MAILBOX && s.queues[s.home[x]] != [] && s.queues[s.home[x]][0] == x
  }

  /** `get_task`: the first ready task becomes the current one. */
  ghost function Dispatch(s: State): State
    requires CanDispatch(s)
  {
    var x := Order(Levels(s))[0];
    WithState(Dequeue(s, s.home[x]), x, Active).(current := x)
  }

  /** What the task does on its own, until it enters the kernel again. */
  function UserRuns(s: State, regs: seq<int>, mem: Memory): State
    requires Running(s)
  {
    s.(tasks := s.tasks[s.current := s.tasks[s.current].(regs := regs)], mem := mem)
  }

  ghost predicate CanAllocate(s: State) {
    Sized(s) && s.queues[FREE_LIST] != [] && s.queues[FREE_LIST][0] < MAX_NUM_TASKS
  }

  /** `new_task`: the first free slot begins a new life. */
  function NewTask(s: State, parentTid: int, parentGen: nat, priority: nat, arg: int): State
    requires CanAllocate(s)
  {
    var i := s.queues[FREE_LIST][0];
    var gen := s.reuse[i].gen + 1;
    var regs := s.tasks[i].regs[0 := arg];
    var created := Dequeue(s, FREE_LIST).(
      tasks := s.tasks[i := Task(i + STARTING_TASK_TID, parentTid, priority, Ready, regs)],
      reuse := s.reuse[i := Reuse(parentGen, gen, false)]);
    if parentTid == KERNEL_TID then created
    else
      var parent := Incarnation(SlotOf(parentTid), parentGen);
      created.(hist := s.hist.(creator := s.hist.creator[Incarnation(i, gen) := parent]))
  }

  ghost function Create(s: State): State
    requires Running(s) && s.tasks[s.current].tid == s.current + STARTING_TASK_TID
    requires s.queues[FREE_LIST] != [] ==> s.queues[FREE_LIST][0] < MAX_NUM_TASKS && s.queues[FREE_LIST][0] != s.current
  {
    var c := s.current;
    var me := s.tasks[c];
    var priority := AsU32(me.regs[0]);
    if priority >= NUM_PRIORITIES then Resume(s, -1)
    else if s.queues[FREE_LIST] == [] then Resume(s, -2)
    else
      var i := s.queues[FREE_LIST][0];
      var created := NewTask(s, me.tid, s.reuse[c].gen, priority, me.regs[1]);
      ReadyPush(Resume(created, i + STARTING_TASK_TID), i)
  }

  function MyTid(s: State): State
    requires Running(s)
  {
    Resume(s, s.tasks[s.current].tid)
  }

  ghost predicate ParentKnown(s: State, i: nat)
    requires Sized(s) && i < MAX_NUM_TASKS
  {
    s.tasks[i].parentTid == KERNEL_TID || STARTING_TASK_TID <= s.tasks[i].parentTid < STARTING_TASK_TID + MAX_NUM_TASKS
  }

  function ParentGone(s: State, i: nat): bool
    requires Sized(s) && i < MAX_NUM_TASKS && ParentKnown(s, i)
  {
    s.tasks[i].parentTid != KERNEL_TID &&
    var p := s.tasks[i].parentTid - STARTING_TASK_TID;
    s.reuse[p].free || s.reuse[p].gen != s.reuse[i].parentGen
  }

  function MyParentTid(s: State): State
    requires Running(s) && ParentKnown(s, s.current)
  {
    var parent := s.tasks[s.current].parentTid;
    Resume(s, if ParentGone(s, s.current) then parent + EXITED_PARENT_MASK else parent)
  }

  /** `Yield`, and every call that leaves the tasks alone but for its own result. */
  function Yield(s: State): State
    requires Running(s)
  {
    ReadyPush(s, s.current).(current := NONE)
  }

  function Exit(s: State): State
    requires Running(s)
  {
    var c := s.current;
    Enqueue(WithState(s, c, Free), FREE_LIST, c).(
      reuse := s.reuse[c := s.reuse[c].(free := true)],
      hist := s.hist.(exited := s.hist.exited + {Incarnation(c, s.reuse[c].gen)}),
      current := NONE)
  }

  /** `send_message`: the length is the sender's alone; the receiver's is never read. */
  function SendMessage(s: State, sender: nat, receiver: nat): State
    requires Sized(s) && sender < MAX_NUM_TASKS && receiver < MAX_NUM_TASKS
  {
    var from, to := s.tasks[sender], s.tasks[receiver];
    var n := AsU64(from.regs[2]);
    var mem := StoredTid(Copied(s.mem, to.regs[1], from.regs[1], n), to.regs[0], from.tid);
    WithState(WithResult(s, receiver, AsI64(n)), sender, ReplyWait).(
      mem := mem,
      hist := s.hist.(received := s.hist.received[receiver := s.hist.received[receiver] + [sender]]))
  }

  /** The bookkeeping of a send that will complete: `sender` waits for `target`. */
  function Accepted(s: State, sender: nat, target: nat): State
    requires Sized(s) && sender < MAX_NUM_TASKS && target < MAX_NUM_TASKS
  {
    s.(hist := s.hist.(
         sent := s.hist.sent[target := s.hist.sent[target] + [sender]],
         sends := s.hist.sends[sender := s.hist.sends[sender] + 1]))
  }

  ghost function Send(s: State): State
    requires Running(s)
    requires Prioritised(s)
  {
    var c := s.current;
    var me := s.tasks[c];
    var target := SlotOf(me.regs[0]);
    if AsU32(me.regs[0]) == me.tid then Resume(s, -2)
    else if target >= MAX_NUM_TASKS || s.reuse[target].free then Resume(s, -1)
    else if s.tasks[target].state == ReceiveWait then
      ReadyPush(SendMessage(Accepted(s, c, target), c, target), target).(current := NONE)
    else
      Enqueue(WithState(Accepted(s, c, target), c, SendWait), MAILBOX + target, c).(current := NONE)
  }

  ghost function Receive(s: State): State
    requires Running(s)
    requires var box := s.queues[MAILBOX + s.current]; box != [] ==> box[0] < MAX_NUM_TASKS
  {
    var c := s.current;
    var box := s.queues[MAILBOX + c];
    if box != [] then Yield(SendMessage(Dequeue(s, MAILBOX + c), box[0], c))
    else WithState(s, c, ReceiveWait).(current := NONE)
  }

  /** `reply_message` */
  function ReplyMessage(s: State, sender: nat): State
    requires Running(s) && sender < MAX_NUM_TASKS
  {
    var me, to := s.tasks[s.current], s.tasks[sender];
    var n := ReplyLength(me.regs[2], to.regs[4]);
    WithResult(WithResult(s, s.current, AsI64(n)), sender, AsI64(n)).(
      mem := Copied(s.mem, to.regs[3], me.regs[1], n),
      hist := s.hist.(replies := s.hist.replies[sender := s.hist.replies[sender] + 1]))
  }

  function ReplyLength(srclen: int, destlen: int): nat {
    if AsU64(srclen) > AsU64(destlen) then AsU64(destlen) else AsU64(srclen)
  }

  ghost function Reply(s: State): State
    requires Running(s)
    requires Prioritised(s)
  {
    var sender := SlotOf(s.tasks[s.current].regs[0]);
    if sender >= MAX_NUM_TASKS || s.reuse[sender].free then Resume(s, -1)
    else if s.tasks[sender].state != ReplyWait then Resume(s, -2)
    else Yield(ReadyPush(ReplyMessage(s, sender), sender))
  }

  /** `k_await_event` leaves the state tag as it is. */
  function AwaitEvent(s: State): State
    requires Running(s)
  {
    var c := s.current;
    var event := AsU32(s.tasks[c].regs[0]);
    if event < MAX_NUM_EVENTS then Enqueue(s, EVENT + event, c).(current := NONE)
    else Resume(s, -1)
  }

  ghost predicate CanWake(s: State, event: nat) {
    && Sized(s) && event < MAX_NUM_EVENTS
    && var q := s.queues[EVENT + event];
    forall k | 0 <= k < |q| :: q[k] < MAX_NUM_TASKS && 0 <= s.tasks[q[k]].priority < NUM_PRIORITIES
  }

  /** `wake_up_tasks_on_event`: every waiter gets `v`, in the order they came. */
  ghost function WakeAll(s: State, event: nat, v: int): State
    requires CanWake(s, event)
    decreases |s.queues[EVENT + event]|
  {
    var q := EVENT + event;
    if s.queues[q] == [] then s
    else
      var i := s.queues[q][0];
      WakeAll(ReadyPush(WithResult(Dequeue(s, q), i, v), i), event, v)
  }

  /** What brings a task into the kernel: a call, or an interrupt (with what it wakes). Calls
      that leave the tasks alone differ only in the result they may give. */
  datatype Request =
    | CreateRequest | MyTidRequest | MyParentTidRequest | ExitRequest
    | SendRequest | ReceiveRequest | ReplyRequest | AwaitEventRequest
    | OtherRequest(result: Option<int>)
    | Interrupt(wakes: Option<Wake>)

  datatype Wake = Wake(event: nat, result: int)

  /** One turn of the loop: the task that is dispatched leaves `regs` and `mem` behind when
      it enters the kernel again with `request`. */
  datatype Input = Input(regs: seq<int>, mem: Memory, request: Request)

  predicate ValidInput(input: Input) {
    |input.regs| == NUM_REGISTERS &&
    (input.request.Interrupt? && input.request.wakes.Some? ==> input.request.wakes.value.event < MAX_NUM_EVENTS)
  }

  /** A machine on which no task has been created yet. */
  function Blank(tasks: seq<Task>, mem: Memory): State {
    var none := seq(MAX_NUM_TASKS, _ => []);
    State(tasks,
          seq(MAX_NUM_TASKS, _ => Reuse(0, 0, true)),
          seq(NUM_QUEUES, q => if q == FREE_LIST then seq(MAX_NUM_TASKS, i => i) else []),
          seq(MAX_NUM_TASKS, _ => FREE_LIST),
          mem, NONE,
          History(none, none, seq(MAX_NUM_TASKS, _ => 0), seq(MAX_NUM_TASKS, _ => 0), {}, map[]))
  }

  predicate Raw(tasks: seq<Task>) {
    |tasks| == MAX_NUM_TASKS && forall i | 0 <= i < |tasks| :: |tasks[i].regs| == NUM_REGISTERS
  }

  /** The first task is the kernel's own child. */
  function Boot(tasks: seq<Task>, mem: Memory, arg: int): State
    requires Raw(tasks)
  {
    var blank := Blank(tasks, mem);
    assert blank.queues[FREE_LIST][0] == 0;
    ReadyPush(NewTask(blank, KERNEL_TID, 1, PRIORITY_L2, arg), 0)
  }
}
