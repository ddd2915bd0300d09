/** The rock-paper-scissors server (`kern/servers.cpp`). A client that sent a message waits
    until it is answered; the kernel does not let it send again before. */
module MatchServer {
  import opened Sequences

  datatype Message = Rock | Paper | Scissors | Signup | Quit | Other

  datatype Reply = SendAction | WinAndSendAction | LoseAndSendAction | TieAndSendAction | Abandoned | Invalid

  datatype Match = Match(opponent: int, which: Message)

  predicate IsMove(m: Message) {
    m.Rock? || m.Paper? || m.Scissors?
  }

  /** 0: tie, 1: the first wins, -1: the second wins. */
  function WhoWins(m1: Message, m2: Message): int {
    if m1 == m2 then 0
    else if (m1.Rock? && m2.Paper?) || (m1.Paper? && m2.Scissors?) || (m1.Scissors? && m2.Rock?) then -1
    else 1
  }

  /** The move that beats `m`. */
  function Beater(m: Message): Message
    requires IsMove(m)
  {
    match m
    case Rock => Paper
    case Paper => Scissors
    case Scissors => Rock
  }

  /** The rules: paper beats rock, scissors paper and rock scissors, a move ties with itself
      alone, and each player of a round sees it from the other side. */
  lemma {:induction false} FairGame(a: Message, b: Message)
    requires IsMove(a) && IsMove(b)
    ensures WhoWins(a, b) == 1 <==> a == Beater(b)
    ensures WhoWins(a, b) == 0 <==> a == b
    ensures WhoWins(a, b) == -WhoWins(b, a)
  {
  }

  function Outcome(mine: Message, theirs: Message): Reply {
    if WhoWins(mine, theirs) == -1 then LoseAndSendAction
    else if WhoWins(mine, theirs) == 1 then WinAndSendAction
    else TieAndSendAction
  }

  /** What the clients see: who asked what, who was answered what, and rounds as they end. */
  datatype Event = Asked(tid: int, message: Message) | Answered(tid: int, reply: Reply)

  type Matches = map<int, Match>

  ghost predicate PairedAt(matches: Matches, p: int) {
    p in matches ==>
      && matches[p].opponent in matches
      && matches[p].opponent != p
      && matches[matches[p].opponent].opponent == p
      && (matches[p].which.Signup? || IsMove(matches[p].which))
  }

  /** Matched players come in pairs of two different clients. */
  ghost predicate Paired(matches: Matches) {
    forall p :: PairedAt(matches, p)
  }

  /** No pair has both moves in. */
  ghost predicate Settled(matches: Matches) {
    forall p | p in matches :: !RoundOver(matches, p)
  }

  /** The pair of `p` has both moves in. */
  predicate RoundOver(matches: Matches, p: int) {
    p in matches && matches[p].opponent in matches
    && !matches[p].which.Signup? && !matches[matches[p].opponent].which.Signup?
  }

  /** Both players of `p`'s pair are to move again. */
  function NextRound(matches: Matches, p: int): Matches
    requires p in matches && matches[p].opponent in matches
  {
    var o := matches[p].opponent;
    matches[p := matches[p].(which := Signup)][o := matches[o].(which := Signup)]
  }

  lemma {:induction false} NextRoundOk(matches: Matches, p: int)
    requires Paired(matches) && RoundOver(matches, p)
    ensures var next := NextRound(matches, p);
      && next.Keys == matches.Keys && Paired(next)
      && (forall q | q in matches && q != p && q != matches[p].opponent :: next[q] == matches[q])
      && (forall q | q == p || q == matches[p].opponent ::
            next[q].which.Signup? && next[q].opponent == matches[q].opponent)
      && PairedAt(matches, p) && PairedAt(matches, matches[p].opponent)
      && matches[matches[p].opponent].opponent == p && NextRound(matches, matches[p].opponent) == next
  {
    var o := matches[p].opponent;
    assert PairedAt(matches, p) && PairedAt(matches, o);
    var next := NextRound(matches, p);
    forall q
      ensures PairedAt(next, q)
    {
      assert PairedAt(matches, q);
      if q in matches { assert PairedAt(matches, matches[q].opponent); }
    }
  }

  lemma {:induction false} OneRoundSettles(matches: Matches, p: int)
    requires Paired(matches) && RoundOver(matches, p)
    requires forall q | q in matches && q != p && matches[q].opponent != p :: !RoundOver(matches, q)
    ensures Settled(NextRound(matches, p))
  {
    NextRoundOk(matches, p);
    hide NextRound;
    forall q | q in matches
      ensures !RoundOver(NextRound(matches, p), q)
    {
      assert PairedAt(matches, q) && PairedAt(NextRound(matches, p), q);
      assert q != p && matches[q].opponent != p ==> !RoundOver(matches, q);
    }
  }

  /** What a finished round leaves: both players, in some order, get their side of it. */
  ghost predicate RoundPlayed(before: Matches, start: seq<Event>, tid: int, matches: Matches, log: seq<Event>) {
    && RoundOver(before, tid) && matches == NextRound(before, tid)
    && var mine, theirs := before[tid], before[before[tid].opponent];
       var a, b := Answered(tid, Outcome(mine.which, theirs.which)),
         Answered(mine.opponent, Outcome(theirs.which, mine.which));
       log == start + [a, b] || log == start + [b, a]
  }

  lemma {:induction false} EitherSide(before: Matches, start: seq<Event>, p: int, tid: int, log: seq<Event>)
    requires Paired(before) && RoundOver(before, p) && tid in before && (p == tid || before[p].opponent == tid)
    requires var mine, theirs := before[p], before[before[p].opponent];
      log == start + [Answered(p, Outcome(mine.which, theirs.which)),
        Answered(mine.opponent, Outcome(theirs.which, mine.which))]
    ensures RoundPlayed(before, start, tid, NextRound(before, p), log)
  {
    NextRoundOk(before, p);
  }

  /** The client has a request that was not answered. */
  ghost function Unanswered(log: seq<Event>, tid: int): bool {
    if log == [] then false
    else
      match log[|log| - 1]
      case Asked(t, _) => t == tid || Unanswered(log[..|log| - 1], tid)
      case Answered(t, _) => t != tid && Unanswered(log[..|log| - 1], tid)
  }

  /** No client asks while it waits, and none is answered that does not: each request has at
      most one answer. */
  ghost predicate Orderly(log: seq<Event>) {
    log == [] ||
    (Orderly(log[..|log| - 1]) &&
     match log[|log| - 1]
     case Asked(t, _) => !Unanswered(log[..|log| - 1], t)
     case Answered(t, _) => Unanswered(log[..|log| - 1], t))
  }

  lemma {:induction false} LogSnoc(log: seq<Event>, e: Event)
    ensures forall tid :: Unanswered(log + [e], tid) ==
                          if e.tid == tid then e.Asked? else Unanswered(log, tid)
    ensures Orderly(log + [e]) <==> Orderly(log) && (Unanswered(log, e.tid) <==> e.Answered?)
  {
    assert (log + [e])[..|log|] == log;
  }

  // ----- What each message means -----

  /** The server as its clients see it. */
  datatype Board = Board(queue: seq<int>, matches: Matches, log: seq<Event>)

  /** Who has a match is refused. Otherwise it waits, or it and the one that waits are matched
      and both asked to move. */
  ghost predicate SignedUp(tid: int, a: Board, b: Board) {
    if tid in a.matches then
      b.matches == a.matches && b.queue == a.queue && b.log == a.log + [Asked(tid, Signup), Answered(tid, Invalid)]
    else if a.queue == [] then
      b.matches == a.matches && b.queue == [tid] && b.log == a.log + [Asked(tid, Signup)]
    else
      var p0 := a.queue[0];
      && b.matches == a.matches[p0 := Match(tid, Signup)][tid := Match(p0, Signup)] && b.queue == []
      && b.log == a.log + [Asked(tid, Signup)] + [Answered(p0, SendAction), Answered(tid, SendAction)]
  }

  /** A move without a match is told that the match is over. Otherwise it is kept until the
      opponent's is in; then the round is played. */
  ghost predicate MoveMade(tid: int, act: Message, a: Board, b: Board) {
    && b.queue == a.queue
    && (if tid !in a.matches then
          b.matches == a.matches && b.log == a.log + [Asked(tid, act), Answered(tid, Abandoned)]
        else
          var moved := a.matches[tid := Match(a.matches[tid].opponent, act)];
          if RoundOver(moved, tid) then RoundPlayed(moved, a.log + [Asked(tid, act)], tid, b.matches, b.log)
          else b.matches == moved && b.log == a.log + [Asked(tid, act)])
  }

  /** Quitting ends the match: the other player is told if it waits, or when it next asks. */
  ghost predicate QuitBy(tid: int, a: Board, b: Board) {
    && b.queue == a.queue
    && (if tid !in a.matches then
          b.matches == a.matches && b.log == a.log + [Asked(tid, Quit), Answered(tid, Abandoned)]
        else
          var o := a.matches[tid].opponent;
          && o in a.matches && b.matches == a.matches - {tid, o}
          && b.log == a.log + [Asked(tid, Quit), Answered(tid, Abandoned)]
                      + (if IsMove(a.matches[o].which) then [Answered(o, Abandoned)] else []))
  }

  /** What a message from `tid` does. */
  ghost predicate Served(tid: int, message: Message, a: Board, b: Board) {
    match message
    case Signup => SignedUp(tid, a, b)
    case Quit => QuitBy(tid, a, b)
    case Other => b.queue == a.queue && b.matches == a.matches && b.log == a.log + [Asked(tid, Other)]
    case _ => MoveMade(tid, message, a, b)
  }

  class Server {
    var queue: seq<int>
    var matches: Matches
    /** Clients that sent what the server does not know; they are never answered. */
    ghost var ignored: set<int>
    ghost var log: seq<Event>

    ghost function View(): Board
      reads this
    {
      Board(queue, matches, log)
    }

    /** A client waits exactly if it is queued, has a move in, or was ignored. */
    ghost predicate Waits(tid: int)
      reads this
    {
      tid in queue || (tid in matches && IsMove(matches[tid].which)) || tid in ignored
    }

    ghost predicate Consistent()
      reads this
    {
      && Paired(matches) && Orderly(log)
      && NoRepeat(queue)
      && (forall tid | tid in queue :: tid !in matches && tid !in ignored)
      && (forall tid | tid in matches && IsMove(matches[tid].which) :: tid !in ignored)
      && (forall tid :: Unanswered(log, tid) <==> Waits(tid))
    }

    /** How things stand when the server waits for a message. */
    ghost predicate Valid()
      reads this
    {
      Consistent() && Settled(matches) && |queue| <= 1
    }

    constructor ()
      ensures Valid() && log == []
    {
      queue, matches, ignored, log := [], map[], {}, [];
    }

    ghost method Note(e: Event)
      modifies this`log
      ensures log == old(log) + [e]
      ensures forall tid :: Unanswered(log, tid) == if e.tid == tid then e.Asked? else Unanswered(old(log), tid)
      ensures Orderly(log) <==> Orderly(old(log)) && (Unanswered(old(log), e.tid) <==> e.Answered?)
    {
      LogSnoc(log, e);
      log := log + [e];
    }

    method Answer(tid: int, reply: Reply)
      requires Unanswered(log, tid) && Orderly(log)
      modifies this`log
      ensures log == old(log) + [Answered(tid, reply)] && Orderly(log)
      ensures forall t :: Unanswered(log, t) == (t != tid && Unanswered(old(log), t))
    {
      Note(Answered(tid, reply));
    }

    /** Both players get their side of the result, and are to move again. */
    method FinishRound(p: int)
      requires Consistent() && RoundOver(matches, p)
      modifies this`matches, this`log
      ensures Consistent() && matches == NextRound(old(matches), p) && matches.Keys == old(matches).Keys
      ensures var mine, theirs := old(matches)[p], old(matches)[old(matches)[p].opponent];
        log == old(log) + [Answered(p, Outcome(mine.which, theirs.which)),
          Answered(mine.opponent, Outcome(theirs.which, mine.which))]
    {
      var o := matches[p].opponent;
      assert PairedAt(matches, p) && PairedAt(matches, o);
      assert Waits(p) && Waits(o) && p != o;
      NextRoundOk(matches, p);
      var cmp := WhoWins(matches[p].which, matches[o].which);
      FairGame(matches[p].which, matches[o].which);
      var reply0, reply1;
      if cmp == -1 {
        reply0, reply1 := LoseAndSendAction, WinAndSendAction;
      } else if cmp == 1 {
        reply0, reply1 := WinAndSendAction, LoseAndSendAction;
      } else {
        reply0, reply1 := TieAndSendAction, TieAndSendAction;
      }
      assert reply0 == Outcome(matches[p].which, matches[o].which)
        && reply1 == Outcome(matches[o].which, matches[p].which);
      hide NextRound, WhoWins, Outcome, Orderly, Unanswered, Paired;
      Answer(p, reply0);
      Answer(o, reply1);
      matches := NextRound(matches, p);
    }

    /** The loop over all matches: only the pair of the client that moved can be done. */
    method PlayRounds(tid: int, order: seq<int>)
      requires Consistent() && EntriesOf(order, matches.Keys) && tid in matches
      requires forall p | p in matches && p != tid && matches[p].opponent != tid :: !RoundOver(matches, p)
      modifies this`matches, this`log
      ensures Consistent() && Settled(matches) && matches.Keys == old(matches).Keys
      ensures if RoundOver(old(matches), tid) then RoundPlayed(old(matches), old(log), tid, matches, log)
              else matches == old(matches) && log == old(log)
    {
      ghost var before, start := matches, log;
      ghost var done := false;
      var k := 0;
      hide NextRound, RoundPlayed, Orderly, Unanswered, Outcome;
      while k < |order|
        invariant 0 <= k <= |order| && Consistent() && matches.Keys == before.Keys
        invariant !done ==> matches == before && log == start && forall i | 0 <= i < k :: !RoundOver(before, order[i])
        invariant done ==> RoundOver(before, tid) && RoundPlayed(before, start, tid, matches, log) && Settled(matches)
      {
        var p := order[k];
        assert p in matches && PairedAt(matches, p);
        if matches[p].which != Signup && matches[matches[p].opponent].which != Signup {
          assert RoundOver(matches, p);
          OneRoundSettlesFor(before, p, tid);
          FinishRound(p);
          EitherSide(before, start, p, tid, log);
          done := true;
        }
        k := k + 1;
      }
      if !done {
        forall p | p in matches
          ensures !RoundOver(matches, p)
        {
          assert p in order;
        }
      }
    }

    /** The first two in the queue are matched, and asked for their first move. */
    method MatchPlayers()
      requires Consistent() && Settled(matches) && |queue| == 2
      modifies this`queue, this`matches, this`log
      ensures Valid() && queue == []
      ensures var p0, p1 := old(queue)[0], old(queue)[1];
        && matches == old(matches)[p0 := Match(p1, Signup)][p1 := Match(p0, Signup)]
        && log == old(log) + [Answered(p0, SendAction), Answered(p1, SendAction)]
    {
      var p0, p1 := queue[0], queue[1];
      assert Waits(p0) && Waits(p1);
      MatchedOk(matches, p0, p1);
      hide Paired, Settled, Orderly, Unanswered;
      queue := queue[2..];
      matches := matches[p0 := Match(p1, Signup)][p1 := Match(p0, Signup)];
      Answer(p0, SendAction);
      Answer(p1, SendAction);
    }

    method HandleSignup(tid: int)
      requires Valid() && !Waits(tid)
      modifies this
      ensures Valid() && SignedUp(tid, old(View()), View())
    {
      hide Paired, Settled, Orderly, Unanswered;
      Note(Asked(tid, Signup));
      if tid in matches {
        Answer(tid, Invalid);
      } else {
        queue := queue + [tid];
        if |queue| >= 2 {
          MatchPlayers();
        }
      }
    }

    method HandleMove(tid: int, act: Message, order: seq<int>)
      requires Valid() && !Waits(tid) && IsMove(act) && EntriesOf(order, matches.Keys)
      modifies this
      ensures Valid() && MoveMade(tid, act, old(View()), View())
    {
      hide Paired, Settled, Orderly, Unanswered, RoundOver, RoundPlayed;
      if tid !in matches {
        Note(Asked(tid, act));
        Answer(tid, Abandoned);
      } else {
        TakeMove(tid, act);
        PlayRounds(tid, order);
      }
    }

    method TakeMove(tid: int, act: Message)
      requires Valid() && !Waits(tid) && IsMove(act) && tid in matches
      modifies this`matches, this`log
      ensures Consistent() && matches == old(matches)[tid := Match(old(matches)[tid].opponent, act)]
        && log == old(log) + [Asked(tid, act)]
      ensures forall p | p in matches && p != tid && matches[p].opponent != tid :: !RoundOver(matches, p)
    {
      MovedOk(matches, tid, act);
      hide Paired, Settled, Orderly, Unanswered, RoundOver;
      Note(Asked(tid, act));
      matches := matches[tid := matches[tid].(which := act)];
    }

    method HandleQuit(tid: int)
      requires Valid() && !Waits(tid)
      modifies this
      ensures Valid() && QuitBy(tid, old(View()), View())
    {
      hide Paired, Settled, Orderly, Unanswered, RoundOver;
      if tid !in matches {
        Note(Asked(tid, Quit));
        Answer(tid, Abandoned);
      } else {
        EndMatch(tid);
      }
    }

    method EndMatch(tid: int)
      requires Valid() && !Waits(tid) && tid in matches
      modifies this`matches, this`log
      ensures Valid() && QuitBy(tid, old(View()), View())
    {
      var o := matches[tid].opponent;
      QuitOk(matches, tid);
      hide Paired, Settled, Orderly, Unanswered, RoundOver;
      Note(Asked(tid, Quit));
      Answer(tid, Abandoned);
      if matches[o].which != Signup {
        assert IsMove(matches[o].which);
        Answer(o, Abandoned);
      }
      matches := matches - {tid, o};
    }

    /** A message that is none of these is not answered at all. */
    method HandleOther(tid: int)
      requires Valid() && !Waits(tid)
      modifies this
      ensures Valid() && queue == old(queue) && matches == old(matches) && log == old(log) + [Asked(tid, Other)]
    {
      hide Paired, Settled, Orderly, Unanswered;
      Note(Asked(tid, Other));
      ignored := ignored + {tid};
    }

    /** Any message does what it says. Only a move can finish a round, so only then is there a
        round to play. */
    method Handle(tid: int, message: Message, order: seq<int>)
      requires Valid() && !Waits(tid) && EntriesOf(order, matches.Keys)
      modifies this
      ensures Valid() && Served(tid, message, old(View()), View())
    {
      hide Paired, Settled, Orderly, Unanswered;
      match message {
        case Signup => HandleSignup(tid);
        case Quit => HandleQuit(tid);
        case Other => HandleOther(tid);
        case _ => HandleMove(tid, message, order);
      }
    }
  }

  lemma {:induction false} MovedOk(matches: Matches, tid: int, act: Message)
    requires Paired(matches) && Settled(matches) && tid in matches && IsMove(act) && !IsMove(matches[tid].which)
    ensures var moved := matches[tid := matches[tid].(which := act)];
      && Paired(moved)
      && (forall p | p in moved && p != tid && moved[p].opponent != tid :: !RoundOver(moved, p))
  {
    var moved := matches[tid := matches[tid].(which := act)];
    forall q
      ensures PairedAt(moved, q)
      ensures q in moved && q != tid && moved[q].opponent != tid ==> !RoundOver(moved, q)
    {
      assert PairedAt(matches, q) && PairedAt(matches, tid);
      assert q in matches ==> !RoundOver(matches, q);
    }
  }

  lemma {:induction false} QuitOk(matches: Matches, tid: int)
    requires Paired(matches) && Settled(matches) && tid in matches
    ensures var o := matches[tid].opponent;
      o in matches && o != tid && (matches[o].which.Signup? || IsMove(matches[o].which))
      && Paired(matches - {tid, o}) && Settled(matches - {tid, o})
  {
    var o := matches[tid].opponent;
    var rest := matches - {tid, o};
    assert PairedAt(matches, tid) && PairedAt(matches, o);
    forall q
      ensures PairedAt(rest, q) && !RoundOver(rest, q)
    {
      assert PairedAt(matches, q);
      assert q in matches ==> !RoundOver(matches, q);
    }
  }

  lemma {:induction false} MatchedOk(matches: Matches, p0: int, p1: int)
    requires Paired(matches) && Settled(matches) && p0 !in matches && p1 !in matches && p0 != p1
    ensures var next := matches[p0 := Match(p1, Signup)][p1 := Match(p0, Signup)]; Paired(next) && Settled(next)
  {
    var next := matches[p0 := Match(p1, Signup)][p1 := Match(p0, Signup)];
    forall q
      ensures PairedAt(next, q) && !RoundOver(next, q)
    {
      assert PairedAt(matches, q);
      assert q in matches ==> !RoundOver(matches, q);
    }
  }

  lemma {:induction false} OneRoundSettlesFor(matches: Matches, p: int, tid: int)
    requires Paired(matches) && RoundOver(matches, p) && tid in matches
    requires forall q | q in matches && q != tid && matches[q].opponent != tid :: !RoundOver(matches, q)
    ensures (p == tid || matches[p].opponent == tid) && RoundOver(matches, tid) && Settled(NextRound(matches, p))
  {
    assert PairedAt(matches, p) && PairedAt(matches, tid);
    if p == tid {
      OneRoundSettles(matches, p);
    } else {
      NextRoundOk(matches, p);
      OneRoundSettles(matches, tid);
    }
  }
}
