/** The terminal's two servers (`kern/gtkterm.cpp`), each with a notifier that sends to it
    again after every interrupt it waited for. While its message is unanswered the notifier
    is blocked; the server calls it parked when it means to leave it so. */
module Terminal {
  import opened MachineInts

  const BURST: int := 32

  /** How many of `n` bytes a transmitter with room for `level` takes. */
  function Fitting(level: int, n: nat): nat {
    if level <= 0 then 0 else if level < n then level else n
  }

  /** Bytes out: what clients were promised is written, or queued to be. */
  class TxServer {
    var charQueue: seq<Byte>
    var notifierIsParked: bool
    ghost var accepted: seq<Byte>
    ghost var emitted: seq<Byte>
    ghost var notifierBlocked: bool

    /** How things stand whenever the server waits for a message. */
    ghost predicate Valid()
      reads this
    {
      && emitted + charQueue == accepted
      && (notifierIsParked ==> charQueue == [])
      && (notifierBlocked <==> notifierIsParked)
    }

    constructor ()
      ensures Valid() && accepted == [] && emitted == [] && !notifierBlocked
    {
      charQueue, notifierIsParked, accepted, emitted, notifierBlocked := [], false, [], [], false;
    }

    /** Writes as much as the transmitter has room for, in bursts. */
    method TryWrite(level: int)
      modifies this`charQueue, this`emitted
      ensures emitted + charQueue == old(emitted + charQueue)
      ensures |charQueue| == old(|charQueue|) - Fitting(level, old(|charQueue|))
    {
      var txlvl := level;
      ghost var all, total := emitted + charQueue, |charQueue|;
      while txlvl > 0 && charQueue != []
        invariant emitted + charQueue == all
        invariant level <= 0 ==> txlvl == level && |charQueue| == total
        invariant level > 0 ==> 0 <= txlvl <= level && |charQueue| == total - (level - txlvl)
        decreases txlvl
      {
        var writable := if txlvl < BURST then txlvl else BURST;
        writable := if |charQueue| < writable then |charQueue| else writable;
        var buf := charQueue[..writable];
        charQueue := charQueue[writable..];
        emitted := emitted + buf;
        txlvl := txlvl - writable;
      }
    }

    method AnswerNotifier()
      requires notifierBlocked
      modifies this`notifierBlocked
      ensures !notifierBlocked
    {
      notifierBlocked := false;
    }

    /** The notifier can send only when it is not blocked. */
    method HandleNotifier(level: int)
      requires Valid() && !notifierBlocked
      modifies this
      ensures Valid() && accepted == old(accepted) && old(emitted) <= emitted
      ensures |emitted| == |old(emitted)| + Fitting(level, |old(charQueue)|)
      ensures notifierBlocked <==> charQueue == []
    {
      notifierBlocked := true;
      if charQueue == [] {
        notifierIsParked := true;
        return;
      }
      TryWrite(level);
      Extends(old(emitted), emitted, charQueue, old(charQueue));
      if charQueue != [] {
        notifierIsParked := false;
        AnswerNotifier();
      } else {
        notifierIsParked := true;
      }
    }

    /** `PUTC` and `PUTS`: the client is answered at once. */
    method HandlePut(data: seq<Byte>, level: int)
      requires Valid()
      modifies this
      ensures Valid() && accepted == old(accepted) + data && old(emitted) <= emitted
      ensures |emitted| == |old(emitted)| + Fitting(level, |old(charQueue)| + |data|)
    {
      var i := 0;
      ghost var queued := charQueue;
      while i < |data|
        invariant 0 <= i <= |data| && charQueue == queued + data[..i]
        invariant emitted == old(emitted) && notifierIsParked == old(notifierIsParked)
          && notifierBlocked == old(notifierBlocked)
      {
        charQueue := charQueue + [data[i]];
        i := i + 1;
      }
      accepted := old(accepted) + data;
      ghost var all := charQueue;
      assert data[..i] == data;
      assert emitted + charQueue == accepted;
      TryWrite(level);
      Extends(old(emitted), emitted, charQueue, all);
      if charQueue != [] && notifierIsParked {
        notifierIsParked := false;
        AnswerNotifier();
      }
    }
  }

  lemma {:induction false} Extends(a: seq<Byte>, a': seq<Byte>, q': seq<Byte>, q: seq<Byte>)
    requires a' + q' == a + q && |q'| <= |q|
    ensures a <= a' && |a'| - |a| == |q| - |q'|
  {
    assert a' == (a' + q')[..|a'|];
    assert a == (a + q)[..|a|];
    assert |a' + q'| == |a'| + |q'| && |a + q| == |a| + |q|;
  }

  /** Bytes in: the i-th request gets the i-th byte. */
  class RxServer {
    var requesterQueue: seq<int>
    var charQueue: seq<Byte>
    var notifierIsParked: bool
    ghost var asked: seq<int>
    ghost var arrived: seq<Byte>
    ghost var given: nat
    ghost var notifierBlocked: bool

    /** The first `given` requests have had the first `given` bytes; the rest are queued. */
    ghost predicate Split()
      reads this
    {
      given <= |asked| && given <= |arrived| && requesterQueue == asked[given..] && charQueue == arrived[given..]
    }

    ghost predicate Valid()
      reads this
    {
      && Split()
      && (requesterQueue == [] || charQueue == [])
      && (notifierBlocked <==> notifierIsParked)
      && (requesterQueue != [] ==> !notifierIsParked)
    }

    constructor ()
      ensures Valid() && asked == [] && arrived == [] && given == 0 && !notifierBlocked
    {
      requesterQueue, charQueue, notifierIsParked := [], [], false;
      asked, arrived, given, notifierBlocked := [], [], 0, false;
    }

    /** Hands out bytes while there is someone to take one: each `reply` names a client and
        the byte it gets. */
    method Serve() returns (replies: seq<(int, Byte)>)
      requires Split()
      modifies this`requesterQueue, this`charQueue, this`given
      ensures Split() && (requesterQueue == [] || charQueue == [])
      ensures given == old(given) + |replies|
      ensures forall k | 0 <= k < |replies| :: replies[k] == (asked[old(given) + k], arrived[old(given) + k])
    {
      replies := [];
      while requesterQueue != [] && charQueue != []
        invariant Split() && given == old(given) + |replies|
        invariant forall k | 0 <= k < |replies| :: replies[k] == (asked[old(given) + k], arrived[old(given) + k])
        decreases |requesterQueue|
      {
        replies := replies + [(requesterQueue[0], charQueue[0])];
        requesterQueue, charQueue := requesterQueue[1..], charQueue[1..];
        given := given + 1;
      }
    }

    method AnswerNotifier()
      requires notifierBlocked
      modifies this`notifierBlocked
      ensures !notifierBlocked
    {
      notifierBlocked := false;
    }

    /** The loop that empties the receiver: `data` is what it reads there, byte by byte. */
    method ReadAll(data: seq<Byte>)
      requires Split()
      modifies this`charQueue, this`arrived
      ensures Split() && arrived == old(arrived) + data
    {
      var k := 0;
      while k < |data|
        invariant 0 <= k <= |data|
        invariant Split() && arrived == old(arrived) + data[..k]
      {
        charQueue := charQueue + [data[k]];
        arrived := arrived + [data[k]];
        k := k + 1;
      }
      assert data[..k] == data;
    }

    /** The notifier brings what the receiver holds. */
    method HandleNotifier(data: seq<Byte>) returns (replies: seq<(int, Byte)>)
      requires Valid() && !notifierBlocked
      modifies this
      ensures Valid() && arrived == old(arrived) + data && asked == old(asked)
      ensures given == old(given) + |replies|
      ensures forall k | 0 <= k < |replies| :: replies[k] == (asked[old(given) + k], arrived[old(given) + k])
      ensures notifierBlocked <==> requesterQueue == []
    {
      notifierBlocked := true;
      ReadAll(data);
      replies := Serve();
      if requesterQueue == [] {
        notifierIsParked := true;
      } else {
        AnswerNotifier();
      }
    }

    method HandleGetc(tid: int) returns (replies: seq<(int, Byte)>)
      requires Valid() && tid !in requesterQueue
      modifies this
      ensures Valid() && asked == old(asked) + [tid] && arrived == old(arrived)
      ensures given == old(given) + |replies|
      ensures forall k | 0 <= k < |replies| :: replies[k] == (asked[old(given) + k], arrived[old(given) + k])
    {
      requesterQueue := requesterQueue + [tid];
      asked := asked + [tid];
      replies := Serve();
      if requesterQueue != [] && notifierIsParked {
        notifierIsParked := false;
        AnswerNotifier();
      }
    }
  }
}
