/** Intrusive containers (`generic/containers.hpp`). Every element has one link, and every
    queue threads its elements through those links, so an element can be in at most one
    queue at a time: that is the precondition of each push. */
module Containers {
  import opened Sequences

  const NONE: int := -1

  /** The head of one intrusive queue, with its counter. */
  datatype Queue = Queue(front: int, back: int, size: nat)

  /** `q` threads exactly the elements `c` through the links. */
  ghost predicate Threads(next: seq<int>, q: Queue, c: seq<nat>) {
    && q.size == |c|
    && (forall k | 0 <= k < |c| :: c[k] < |next|)
    && (c == [] ==> q.front == NONE && q.back == NONE)
    && (c != [] ==> q.front == c[0] && q.back == c[|c| - 1] && next[c[|c| - 1]] == NONE)
    && (forall k | 0 <= k < |c| - 1 :: next[c[k]] == c[k + 1])
  }

  /** Each element is in the one queue its `home` names, once, or in none. */
  ghost predicate AtHome(contents: seq<seq<nat>>, home: seq<int>) {
    && (forall q | 0 <= q < |contents| :: NoRepeat(contents[q]))
    && (forall q, k | 0 <= q < |contents| && 0 <= k < |contents[q]| ::
          contents[q][k] < |home| && home[contents[q][k]] == q)
    && (forall s | 0 <= s < |home| :: home[s] == NONE || (0 <= home[s] < |contents| && s in contents[home[s]]))
  }

  lemma {:induction false} ThreadsKept(next: seq<int>, next': seq<int>, q: Queue, c: seq<nat>)
    requires Threads(next, q, c) && |next'| == |next|
    requires forall k | 0 <= k < |c| :: next'[c[k]] == next[c[k]]
    ensures Threads(next', q, c)
  {
  }

  lemma {:induction false} PushAtHome(contents: seq<seq<nat>>, home: seq<int>, q: nat, s: nat)
    requires AtHome(contents, home) && q < |contents| && s < |home| && home[s] == NONE
    ensures AtHome(contents[q := contents[q] + [s]], home[s := q])
  {
  }

  lemma {:induction false} PopAtHome(contents: seq<seq<nat>>, home: seq<int>, q: nat)
    requires AtHome(contents, home) && q < |contents| && contents[q] != []
    ensures var x := contents[q][0];
      x < |home| && home[x] == q && AtHome(contents[q := contents[q][1..]], home[x := NONE])
  {
  }

  lemma {:induction false} PushThreads(next: seq<int>, q: Queue, c: seq<nat>, s: nat)
    requires Threads(next, q, c) && NoRepeat(c) && s < |next| && s !in c
    ensures q.size == 0 ==> Threads(next[s := NONE], Queue(s, s, 1), c + [s])
    ensures q.size > 0 ==>
      && 0 <= q.back < |next|
      && Threads(next[s := NONE][q.back := s], Queue(q.front, s, q.size + 1), c + [s])
  {
  }

  function Popped(next: seq<int>, q: Queue): Queue
    requires 0 <= q.front < |next| && q.size > 0
  {
    var front := next[q.front];
    Queue(front, if front == NONE then NONE else q.back, q.size - 1)
  }

  lemma {:induction false} PopThreads(next: seq<int>, q: Queue, c: seq<nat>)
    requires Threads(next, q, c) && NoRepeat(c) && c != []
    ensures q.front == c[0] < |next| && q.size > 0 && Threads(next, Popped(next, q), c[1..])
  {
    assert forall k | 0 <= k < |c[1..]| :: c[1..][k] == c[k + 1];
    if |c| > 1 {
      assert next[c[0]] == c[0 + 1];
    }
  }

  /** Queues threaded through one array of links. */
  class LinkPool {
    var next: seq<int>
    var queues: seq<Queue>
    ghost var contents: seq<seq<nat>>
    ghost var home: seq<int>

    ghost predicate Valid()
      reads this
    {
      && |home| == |next| && |contents| == |queues|
      && AtHome(contents, home)
      && (forall q | 0 <= q < |queues| :: Threads(next, queues[q], contents[q]))
    }

    constructor (elements: nat, count: nat)
      ensures Valid() && |next| == elements && |queues| == count
      ensures forall q | 0 <= q < count :: contents[q] == []
      ensures forall s | 0 <= s < elements :: home[s] == NONE
    {
      next := seq(elements, _ => NONE);
      queues := seq(count, _ => Queue(NONE, NONE, 0));
      contents := seq(count, _ => []);
      home := seq(elements, _ => NONE);
    }

    method Push(q: nat, s: nat)
      requires Valid() && q < |queues| && s < |next| && home[s] == NONE
      modifies this
      ensures Valid() && |next| == old(|next|) && |queues| == old(|queues|)
      ensures contents == old(contents)[q := old(contents[q]) + [s]]
      ensures home == old(home)[s := q]
    {
      PushAtHome(contents, home, q, s);
      PushThreads(next, queues[q], contents[q], s);
      hide AtHome;
      ghost var was := next;
      next := next[s := NONE];
      if queues[q].size == 0 {
        queues := queues[q := Queue(s, s, 1)];
      } else {
        next := next[queues[q].back := s];
        queues := queues[q := Queue(queues[q].front, s, queues[q].size + 1)];
      }
      forall p | 0 <= p < |queues| && p != q
        ensures Threads(next, queues[p], contents[p])
      {
        ThreadsKept(was, next, queues[p], contents[p]);
      }
      contents := contents[q := contents[q] + [s]];
      home := home[s := q];
    }

    method Size(q: nat) returns (n: nat)
      requires Valid() && q < |queues|
      ensures n == |contents[q]|
    {
      n := queues[q].size;
    }

    method Front(q: nat) returns (s: nat)
      requires Valid() && q < |queues| && contents[q] != []
      ensures s == contents[q][0]
    {
      s := queues[q].front;
    }

    method Pop(q: nat) returns (s: nat)
      requires Valid() && q < |queues| && contents[q] != []
      modifies this
      ensures Valid() && |next| == old(|next|) && |queues| == old(|queues|)
      ensures s == old(contents[q])[0] && s < |next|
      ensures contents == old(contents)[q := old(contents[q])[1..]]
      ensures old(home[s]) == q && home == old(home)[s := NONE]
    {
      PopAtHome(contents, home, q);
      PopThreads(next, queues[q], contents[q]);
      hide AtHome, Threads;
      s := queues[q].front;
      var front := next[s];
      queues := queues[q := Queue(front, if front == NONE then NONE else queues[q].back, queues[q].size - 1)];
      contents := contents[q := contents[q][1..]];
      home := home[s := NONE];
    }
  }

  // ----- The scheduling queue: one queue per priority -----

  /** The one sequence that a queue per priority stands for: by priority, highest first, and
      by arrival within a priority. */
  ghost function Order(levels: seq<seq<nat>>): seq<nat> {
    if levels == [] then [] else levels[|levels| - 1] + Order(levels[..|levels| - 1])
  }

  ghost function Total(levels: seq<seq<nat>>): nat {
    if levels == [] then 0 else |levels[|levels| - 1]| + Total(levels[..|levels| - 1])
  }

  lemma {:induction false} TotalIsLength(levels: seq<seq<nat>>)
    ensures Total(levels) == |Order(levels)|
  {
    if levels == [] {
    } else {
      TotalIsLength(levels[..|levels| - 1]);
    }
  }

  lemma {:induction false} OrderSplit(levels: seq<seq<nat>>, p: nat)
    requires p <= |levels|
    ensures Order(levels) == Order(levels[p..]) + Order(levels[..p])
    decreases |levels|
  {
    if p == |levels| {
      assert levels[..p] == levels && levels[p..] == [];
    } else {
      var n := |levels| - 1;
      var lower, top, upper := levels[..n], levels[n], levels[p..];
      OrderSplit(lower, p);
      assert lower[..p] == levels[..p];
      assert upper[..n - p] == lower[p..] && upper[n - p] == top && |upper| - 1 == n - p;
      assert Order(upper) == top + Order(lower[p..]);
      assert Order(levels) == top + (Order(lower[p..]) + Order(levels[..p]));
    }
  }

  lemma {:induction false} OneLevel(level: seq<nat>)
    ensures Order([level]) == level
  {
  }

  /** A new arrival goes behind everything at least as urgent, before everything less so. */
  lemma {:induction false} OrderPush(levels: seq<seq<nat>>, p: nat, s: nat)
    requires p < |levels|
    ensures Order(levels) == Order(levels[p..]) + Order(levels[..p])
    ensures Order(levels[p := levels[p] + [s]]) == Order(levels[p..]) + [s] + Order(levels[..p])
  {
    var pushed := levels[p := levels[p] + [s]];
    OrderSplit(levels, p);
    OrderSplit(pushed, p);
    OrderSplit(levels[p..], 1);
    OrderSplit(pushed[p..], 1);
    assert pushed[..p] == levels[..p];
    assert pushed[p..][1..] == levels[p..][1..];
    assert pushed[p..][..1] == [levels[p] + [s]];
    assert levels[p..][..1] == [levels[p]];
    OneLevel(levels[p]);
    OneLevel(levels[p] + [s]);
  }

  lemma {:induction false} OrderOfEmpty(levels: seq<seq<nat>>)
    requires forall p | 0 <= p < |levels| :: levels[p] == []
    ensures Order(levels) == []
  {
    if levels == [] {
    } else {
      OrderOfEmpty(levels[..|levels| - 1]);
    }
  }

  ghost predicate HighestAt(levels: seq<seq<nat>>, p: nat) {
    p < |levels| && levels[p] != [] && forall k | p < k < |levels| :: levels[k] == []
  }

  /** Taking the first of the highest level that is not empty takes the first of all. */
  lemma {:induction false} OrderPop(levels: seq<seq<nat>>, p: nat)
    requires HighestAt(levels, p)
    ensures Order(levels) != [] && levels[p][0] == Order(levels)[0]
    ensures Order(levels[p := levels[p][1..]]) == Order(levels)[1..]
  {
    var popped := levels[p := levels[p][1..]];
    OrderSplit(levels, p + 1);
    OrderSplit(popped, p + 1);
    OrderOfEmpty(levels[p + 1..]);
    assert popped[p + 1..] == levels[p + 1..];
    assert levels[..p + 1][..p] == levels[..p] == popped[..p + 1][..p];
  }

  // ----- How long a task waits -----

  datatype Op = Arrive(s: nat, priority: nat) | Take

  /** A run in which nothing above `p` is ready whenever a task is dispatched. */
  ghost predicate OnlyUpTo(levels: seq<seq<nat>>, ops: seq<Op>, p: nat)
    decreases |ops|
  {
    ops == [] ||
    match ops[0]
    case Arrive(s, q) => q < |levels| && OnlyUpTo(levels[q := levels[q] + [s]], ops[1..], p)
    case Take => HighestAt(levels, p) && OnlyUpTo(levels[p := levels[p][1..]], ops[1..], p)
  }

  ghost function Dispatched(levels: seq<seq<nat>>, ops: seq<Op>, p: nat): seq<nat>
    requires OnlyUpTo(levels, ops, p)
    decreases |ops|
  {
    if ops == [] then []
    else
      match ops[0]
      case Arrive(s, q) => Dispatched(levels[q := levels[q] + [s]], ops[1..], p)
      case Take => [levels[p][0]] + Dispatched(levels[p := levels[p][1..]], ops[1..], p)
  }

  /** A task with `k` ahead of it in its level is the one dispatched after `k` others,
      whatever arrives meanwhile, as long as nothing more urgent is ready. */
  lemma {:induction false} WaitBound(levels: seq<seq<nat>>, ops: seq<Op>, p: nat, k: nat)
    requires OnlyUpTo(levels, ops, p) && p < |levels| && k < |levels[p]|
    requires k < |Dispatched(levels, ops, p)|
    ensures Dispatched(levels, ops, p)[k] == levels[p][k]
    decreases |ops|
  {
    if ops == [] {
    } else {
      match ops[0]
      case Arrive(s, q) =>
        WaitBound(levels[q := levels[q] + [s]], ops[1..], p, k);
      case Take =>
        if k > 0 {
          WaitBound(levels[p := levels[p][1..]], ops[1..], p, k - 1);
        }
    }
  }

  class PriorityQueue {
    const pool: LinkPool
    const base: nat
    const priorities: nat
    var size: nat

    ghost function Levels(): seq<seq<nat>>
      reads this, pool
      requires base + priorities <= |pool.contents|
    {
      pool.contents[base..base + priorities]
    }

    ghost predicate Valid()
      reads this, pool
    {
      pool.Valid() && base + priorities <= |pool.contents| && size == Total(Levels())
    }

    constructor (pool: LinkPool, base: nat, priorities: nat)
      requires pool.Valid() && base + priorities <= |pool.queues|
      requires forall q | base <= q < base + priorities :: pool.contents[q] == []
      ensures Valid() && this.pool == pool && this.base == base && this.priorities == priorities
    {
      this.pool, this.base, this.priorities, size := pool, base, priorities, 0;
      new;
      OrderOfEmpty(Levels());
      TotalIsLength(Levels());
    }

    method Push(s: nat, priority: nat)
      requires Valid() && priority < priorities && s < |pool.next| && pool.home[s] == NONE
      modifies this, pool
      ensures Valid() && |pool.next| == old(|pool.next|) && |pool.queues| == old(|pool.queues|)
      ensures pool.contents == old(pool.contents)[base + priority := old(pool.contents[base + priority]) + [s]]
      ensures pool.home == old(pool.home)[s := base + priority]
      ensures var was := old(Levels());
        Order(Levels()) == Order(was[priority..]) + [s] + Order(was[..priority])
    {
      hide AtHome, Threads, Order, Total;
      ghost var was := Levels();
      pool.Push(base + priority, s);
      size := size + 1;
      OrderPush(was, priority, s);
      assert Levels() == was[priority := was[priority] + [s]];
      TotalIsLength(was);
      TotalIsLength(Levels());
    }

    /** The first element and its priority. Since the counter is right, the scan of a queue
        that is not empty always finds one. */
    method FrontTuple() returns (value: nat, priority: nat)
      requires Valid() && size > 0
      ensures HighestAt(Levels(), priority)
      ensures Order(Levels()) != [] && value == Levels()[priority][0] == Order(Levels())[0]
    {
      hide AtHome, Threads, Order, Total;
      priority := priorities;
      TotalIsLength(Levels());
      while priority > 0
        invariant priority <= priorities
        invariant forall k | priority <= k < priorities :: Levels()[k] == []
      {
        priority := priority - 1;
        assert Levels()[priority] == pool.contents[base + priority];
        var size := pool.Size(base + priority);
        if size > 0 {
          OrderPop(Levels(), priority);
          value := pool.Front(base + priority);
          return;
        }
      }
      OrderOfEmpty(Levels());
      assert false;
    }

    method Pop() returns (value: nat)
      requires Valid() && size > 0
      modifies this, pool
      ensures Valid() && |pool.next| == old(|pool.next|) && |pool.queues| == old(|pool.queues|)
      ensures old(Order(Levels())) != [] && value == old(Order(Levels()))[0]
      ensures Order(Levels()) == old(Order(Levels()))[1..]
      ensures value < |pool.next| && base <= old(pool.home[value]) < base + priorities
      ensures var q := old(pool.home[value]);
        && old(pool.contents[q]) != [] && value == old(pool.contents[q])[0]
        && pool.contents == old(pool.contents)[q := old(pool.contents[q])[1..]]
        && pool.home == old(pool.home)[value := NONE]
    {
      hide AtHome, Threads, Order, Total;
      ghost var was := Levels();
      var _, p := FrontTuple();
      OrderPop(was, p);
      value := pool.Pop(base + p);
      size := size - 1;
      assert Levels() == was[p := was[p][1..]];
      TotalIsLength(was);
      TotalIsLength(Levels());
    }
  }
}
