/** The relay's promises, for every run from an empty manager. */
module RelayGuarantees {
  import opened Wrappers
  import opened Relay
  import opened RelayTheorems

  lemma {:induction false} SubsequencePrefix<T>(a: seq<T>, c: seq<T>, b: seq<T>)
    requires IsSubsequence(a + c, b)
    ensures IsSubsequence(a, b)
  {
    if c == [] {
      assert a + c == a;
    } else {
      var c', x := c[..|c| - 1], c[|c| - 1];
      assert a + c == a + c' + [x] + [];
      SubsequenceDrops(a + c', x, [], b);
      assert a + c' + [] == a + c';
      SubsequencePrefix(a, c', b);
    }
  }

  lemma SessionOrder(s: Session)
    requires SessionInv(s)
    ensures s.log.accepted == s.log.taken + s.frames && |s.frames| <= FRAME_BUFFER_SIZE
    ensures IsSubsequence(s.log.written, s.log.received)
    ensures !s.webReady ==> s.log.written == []
  {
    hide IsSubsequence;
    assert Delivered(s) == s.log.written + (InFlight(s.phase) + s.frames);
    SubsequencePrefix(s.log.written, InFlight(s.phase) + s.frames, s.log.received);
  }

  /** The bounded buffer, the order, and nothing before webReady. */
  lemma OrderIsKept(ls: seq<Label>, n: nat)
    requires IsRun(START, ls) && n < |Exec(START, ls).all|
    ensures var s := Exec(START, ls).all[n];
            && s.log.accepted == s.log.taken + s.frames && |s.frames| <= 512
            && IsSubsequence(s.log.written, s.log.received)
            && (!s.webReady ==> s.log.written == [])
  {
    RunKeeps(ls);
    assert SessionInv(Exec(START, ls).all[n]);
    hide *;
    SessionOrder(Exec(START, ls).all[n]);
  }

  /** The web client gets every received frame, in order, exactly when none was dropped on the way. */
  lemma CompleteIffNothingLost(ls: seq<Label>, n: nat)
    requires IsRun(START, ls) && n < |Exec(START, ls).all|
    ensures var s := Exec(START, ls).all[n];
            s.log.received == s.log.written + InFlight(s.phase) + s.frames
            <==> s.log.overflows == 0 && s.log.skips == 0 && s.log.failures == 0
  {
    RunKeeps(ls);
    var s := Exec(START, ls).all[n];
    assert SessionInv(s);
    hide Exec, IsRun, Lifecycle, AllKept, IsSubsequence;
    SubsequenceLength(Delivered(s), s.log.received);
  }

  // ---- What the forwarder can still do

  ghost predicate CanMoves(s: Session, moves: seq<Move>)
    decreases |moves|
  {
    moves == [] || (CanMove(s, moves[0]) && CanMoves(Forward(s, moves[0]), moves[1..]))
  }

  ghost function Moved(s: Session, moves: seq<Move>): Session
    requires CanMoves(s, moves)
    decreases |moves|
  {
    if moves == [] then s else Moved(Forward(s, moves[0]), moves[1..])
  }

  /** The forwarder's steps until it is between frames. */
  function Settle(s: Session): seq<Move> {
    match s.phase
    case Waiting => [Wake]
    case Holding(_) => [Look, Write(true)]
    case Writing(_) => [Write(true)]
    case _ => []
  }

  lemma SettleDelivers(s: Session)
    requires s.web.Some? && s.webReady && !s.phase.Exited?
    ensures CanMoves(s, Settle(s))
    ensures Moved(s, Settle(s)) == s.(phase := Looping, log := s.log.(written := s.log.written + InFlight(s.phase)))
  {
    assert s.log.written + [] == s.log.written;
    match s.phase {
      case Waiting => assert Moved(s, [Wake]) == Forward(s, Wake);
      case Writing(_) => assert Moved(s, [Write(true)]) == Forward(s, Write(true));
      case Holding(_) =>
        var s' := Forward(s, Look);
        assert [Look, Write(true)][1..] == [Write(true)];
        assert Moved(s', [Write(true)]) == Forward(s', Write(true));
      case _ =>
    }
  }

  lemma {:induction false} MovedThen(s: Session, a: seq<Move>, b: seq<Move>)
    requires CanMoves(s, a) && CanMoves(Moved(s, a), b)
    ensures CanMoves(s, a + b) && Moved(s, a + b) == Moved(Moved(s, a), b)
    decreases |a|
  {
    if a == [] {
      assert a + b == b;
    } else {
      assert (a + b)[1..] == a[1..] + b;
      MovedThen(Forward(s, a[0]), a[1..], b);
    }
  }

  /** While the web client is connected and the forwarder lives, everything accepted can be written. */
  lemma {:induction false} ForwarderCanDrain(s: Session) returns (moves: seq<Move>)
    requires s.web.Some? && s.webReady && !s.phase.Exited?
    ensures CanMoves(s, moves)
    ensures Moved(s, moves).frames == [] && Moved(s, moves).log.written == Delivered(s)
    decreases |s.frames|
  {
    SettleDelivers(s);
    moves := Settle(s);
    var idle := Moved(s, moves);
    if s.frames == [] {
      assert Delivered(s) == s.log.written + InFlight(s.phase);
    } else {
      var taken := Forward(idle, Take);
      var rest := ForwarderCanDrain(taken);
      assert Delivered(taken) == idle.log.written + [s.frames[0]] + s.frames[1..] == Delivered(s);
      assert ([Take] + rest)[1..] == rest;
      MovedThen(s, moves, [Take] + rest);
      moves := moves + ([Take] + rest);
    }
  }

  /** Where the forwarder is, and what it has done. */
  predicate SameProgress(s: Session, s': Session) {
    s'.phase == s.phase && s'.log.written == s.log.written && s'.log.taken == s.log.taken
  }

  lemma OthersSpareProgress(s: Session, role: Role, conn: Conn, f: Frame)
    ensures SameProgress(s, Attach(s, role, conn)) && SameProgress(s, Detach(s, role, conn)) && SameProgress(s, Offer(s, f))
  {
  }

  lemma ExitStep(m: Manager, l: Label, n: nat)
    requires WellIndexed(m) && Enabled(m, l) && n < |m.all| && m.all[n].phase.Exited?
    ensures SameProgress(m.all[n], Step(m, l).all[n])
  {
    var s := m.all[n];
    match l {
      case Register(_, role, conn, _) => OthersSpareProgress(s, role, conn, Frame(Other, ""));
      case Unregister(_, role, conn) => OthersSpareProgress(s, role, conn, Frame(Other, ""));
      case Read(_, _, frame, _) => OthersSpareProgress(s, Web, 0, frame);
      case Forwarder(k, move) => assert !CanMove(s, move);
    }
    assert SameProgress(s, s);
    hide SameProgress, Attach, Detach, Offer, Forward, CanMove;
  }

  /** A forwarder that gave up never comes back: nothing is taken or written afterwards. */
  lemma {:induction false} ExitIsFinal(m: Manager, ls: seq<Label>, n: nat)
    requires WellIndexed(m) && IsRun(m, ls) && n < |m.all| && m.all[n].phase.Exited?
    ensures var s := Exec(m, ls).all[n];
            s.phase.Exited? && s.log.written == m.all[n].log.written && s.log.taken == m.all[n].log.taken
  {
    if ls != [] {
      hide Step;
      ExitIsFinal(m, ls[..|ls| - 1], n);
      ExitStep(Exec(m, ls[..|ls| - 1]), ls[|ls| - 1], n);
    }
  }

  lemma {:induction false} RunsCompose(m: Manager, a: seq<Label>, b: seq<Label>)
    requires WellIndexed(m) && IsRun(m, a) && IsRun(Exec(m, a), b)
    ensures IsRun(m, a + b) && Exec(m, a + b) == Exec(Exec(m, a), b)
  {
    if b == [] {
      assert a + b == a;
    } else {
      RunsCompose(m, a, b[..|b| - 1]);
      assert (a + b)[..|a + b| - 1] == a + b[..|b| - 1];
    }
  }

  /** The moves of one session's forwarder as steps of the whole. */
  lemma {:induction false} MovesAreSteps(m: Manager, n: nat, moves: seq<Move>) returns (ls: seq<Label>)
    requires WellIndexed(m) && n < |m.all| && CanMoves(m.all[n], moves)
    ensures IsRun(m, ls) && Exec(m, ls).all[n] == Moved(m.all[n], moves)
    decreases |moves|
  {
    if moves == [] {
      ls := [];
    } else {
      var l := Forwarder(n, moves[0]);
      var m' := Step(m, l);
      RunOne(m, l, []);
      assert [] + [l] == [l];
      assert m'.all[n] == Forward(m.all[n], moves[0]);
      var rest := MovesAreSteps(m', n, moves[1..]);
      RunsCompose(m, [l], rest);
      ls := [l] + rest;
    }
  }

  /** The continuation writes at least everything accepted so far. */
  ghost predicate Delivers(m: Manager, n: nat, more: seq<Label>)
    requires WellIndexed(m) && n < |m.all|
  {
    IsRun(m, more) && Delivered(m.all[n]) <= Exec(m, more).all[n].log.written
  }

  /**
   With the web client connected, some continuation writes every frame accepted so far exactly if the
   forwarder has not given up, or nothing is left to write.
   */
  lemma DeliveryPossibleIff(ls: seq<Label>, n: nat)
    requires IsRun(START, ls) && n < |Exec(START, ls).all| && Exec(START, ls).all[n].web.Some?
    ensures var m := Exec(START, ls);
            (exists more :: Delivers(m, n, more)) <==> !m.all[n].phase.Exited? || m.all[n].frames == []
  {
    RunKeeps(ls);
    var m := Exec(START, ls);
    var s := m.all[n];
    assert SessionInv(s);
    hide SessionInv, Conserved, Buffered, ClosedOnce, AllKept, Lifecycle, IsSubsequence;
    if s.phase.Exited? {
      forall more | IsRun(m, more) ensures Delivers(m, n, more) <==> s.frames == [] {
        ExitIsFinal(m, more, n);
        assert |Delivered(s)| == |s.log.written| + |s.frames|;
        assert s.frames == [] ==> Delivered(s) == s.log.written;
      }
      assert IsRun(m, []);
    } else {
      var moves := ForwarderCanDrain(s);
      var more := MovesAreSteps(m, n, moves);
      assert Delivers(m, n, more);
    }
  }

  // ---- Steady runs

  /** The web client leaves, a write fails, a frame meets a full buffer, or the forwarder gives up waiting. */
  predicate Disturbs(m: Manager, l: Label, n: nat)
    requires WellIndexed(m) && n < |m.all|
  {
    || (l.Unregister? && l.role.Web? && l.id in m.sessions && m.sessions[l.id] == n && m.all[n].web == Some(l.conn))
    || l == Forwarder(n, Write(false)) || l == Forwarder(n, TimeOut)
    || (Reaches(m, l, n) && |m.all[n].frames| == FRAME_BUFFER_SIZE)
  }

  ghost predicate Steady(ls: seq<Label>, n: nat)
    requires IsRun(START, ls)
  {
    ls == [] ||
    var m := Exec(START, ls[..|ls| - 1]);
    Steady(ls[..|ls| - 1], n) && (n < |m.all| ==> !Disturbs(m, ls[|ls| - 1], n))
  }

  /** Once the web client is there it stays, and nothing has been lost. */
  ghost predicate Lossless(s: Session) {
    && (s.webReady ==> s.web.Some?)
    && (s.phase.Exited? ==> s.done)
    && (s.phase.Looping? || s.phase.Holding? || s.phase.Writing? ==> s.webReady)
    && |s.frames| <= FRAME_BUFFER_SIZE
    && s.log.overflows == 0 && s.log.skips == 0 && s.log.failures == 0
  }

  lemma LosslessSession(s: Session, role: Role, conn: Conn, f: Frame)
    requires Lossless(s)
    ensures Lossless(Attach(s, role, conn))
    ensures !(role.Web? && s.web == Some(conn)) ==> Lossless(Detach(s, role, conn))
    ensures |s.frames| < FRAME_BUFFER_SIZE ==> Lossless(Offer(s, f))
  {
  }

  lemma LosslessMove(s: Session, move: Move)
    requires Lossless(s) && CanMove(s, move) && move != Write(false) && move != TimeOut
    ensures Lossless(Forward(s, move))
  {
  }

  lemma SteadyStep(m: Manager, l: Label, n: nat)
    requires WellIndexed(m) && Enabled(m, l) && n < |Step(m, l).all|
    requires n < |m.all| ==> Lossless(m.all[n]) && !Disturbs(m, l, n)
    ensures Lossless(Step(m, l).all[n])
  {
    if n >= |m.all| {
      assert Lossless(NewSession(l.id, l.expiresAt));
      LosslessSession(NewSession(l.id, l.expiresAt), l.role, l.conn, Frame(Other, ""));
    } else {
      assert |m.all[n].frames| <= FRAME_BUFFER_SIZE;
      match l {
        case Register(_, role, conn, _) => LosslessSession(m.all[n], role, conn, Frame(Other, ""));
        case Unregister(_, role, conn) => LosslessSession(m.all[n], role, conn, Frame(Other, ""));
        case Read(_, _, frame, _) => LosslessSession(m.all[n], Web, 0, frame);
        case Forwarder(k, move) =>
          if k == n {
            LosslessMove(m.all[n], move);
          }
      }
    }
    hide Lossless, Attach, Detach, Offer, Forward, CanMove;
  }

  /**
   While the web client comes in time and stays, writes succeed and the buffer has room, no frame is
   ever missing, and with the web client connected the forwarder can still write them all.
   */
  lemma {:induction false} SteadyRunDeliversAll(ls: seq<Label>, n: nat)
    requires IsRun(START, ls) && Steady(ls, n) && n < |Exec(START, ls).all|
    ensures Lossless(Exec(START, ls).all[n])
    ensures var s := Exec(START, ls).all[n];
            && s.log.received == s.log.written + InFlight(s.phase) + s.frames
            && (s.web.Some? ==> exists moves :: CanMoves(s, moves) && Moved(s, moves).log.written == s.log.received)
  {
    CompleteIffNothingLost(ls, n);
    if ls != [] {
      var front := ls[..|ls| - 1];
      if n < |Exec(START, front).all| {
        SteadyRunDeliversAll(front, n);
      }
      SteadyStep(Exec(START, front), ls[|ls| - 1], n);
    }
    RunKeeps(ls);
    var s := Exec(START, ls).all[n];
    assert SessionInv(s);
    if s.web.Some? {
      var moves := ForwarderCanDrain(s);
    }
  }

  // ---- Connections come and go

  /** A session object is in the map, once, exactly while some connection holds one of its slots. */
  lemma InMapWhileConnected(ls: seq<Label>, n: nat)
    requires IsRun(START, ls) && n < |Exec(START, ls).all|
    ensures var m := Exec(START, ls); var s := m.all[n];
            && ((exists id :: id in m.sessions && m.sessions[id] == n) <==> s.android.Some? || s.web.Some?)
            && (forall id :: id in m.sessions && m.sessions[id] == n ==> id == s.id)
            && s.log.doneCloses == (if s.android.Some? || s.web.Some? then 0 else 1)
            && s.log.readyCloses == (if s.webReady then 1 else 0)
  {
    RunKeeps(ls);
    assert SessionInv(Exec(START, ls).all[n]);
  }

  function Slot(s: Session, role: Role): Option<Conn> {
    if role.Android? then s.android else s.web
  }

  /** Only the connection that holds the slot can change anything by leaving. */
  lemma StaleUnregisterIsNoop(ls: seq<Label>, id: string, role: Role, conn: Conn)
    requires IsRun(START, ls)
    ensures var m := Exec(START, ls);
            Step(m, Unregister(id, role, conn)) == m
            <==> !(id in m.sessions && Slot(m.all[m.sessions[id]], role) == Some(conn))
  {
    RunKeeps(ls);
    var m := Exec(START, ls);
    if id in m.sessions {
      var n := m.sessions[id];
      if Slot(m.all[n], role) == Some(conn) {
        assert Slot(Step(m, Unregister(id, role, conn)).all[n], role) == None;
      } else {
        assert m.all[n := m.all[n]] == m.all;
      }
    }
  }

  lemma RunOne(m: Manager, l: Label, before: seq<Label>)
    requires WellIndexed(m) && IsRun(m, before) && Enabled(Exec(m, before), l)
    ensures IsRun(m, before + [l]) && Exec(m, before + [l]) == Step(Exec(m, before), l)
  {
    assert (before + [l])[..|before|] == before;
  }

  /** When both arms are ready the timeout may win, and then a connected web client gets nothing. */
  lemma TimeOutCanWinRace(f: Frame)
    requires !f.kind.Other?
    ensures var ls := [Register("s", Android, 0, 9), Read("s", Android, f, 0), Register("s", Web, 1, 9), Forwarder(0, TimeOut)];
            && IsRun(START, ls)
            && var s := Exec(START, ls).all[0];
               s.web == Some(1) && s.webReady && s.phase.Exited? && s.frames == [f] && s.log.written == []
  {
    var a, b := Register("s", Android, 0, 9), Read("s", Android, f, 0);
    var c, d := Register("s", Web, 1, 9), Forwarder(0, TimeOut);
    var ls := [a, b, c, d];
    assert [] + [a] == [a] && [a] + [b] == [a, b] && [a, b] + [c] == [a, b, c] && [a, b, c] + [d] == ls;
    RunOne(START, a, []);
    RunOne(START, b, [a]);
    RunOne(START, c, [a, b]);
    RunOne(START, d, [a, b, c]);
  }
}
