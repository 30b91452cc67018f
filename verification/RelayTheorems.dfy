/** What the relay keeps over every run. */
module RelayTheorems {
  import opened Relay

  // ---- Subsequences

  ghost predicate IsSubsequence<T>(a: seq<T>, b: seq<T>) {
    || a == []
    || (b != [] &&
        var (a', b') := (a[..|a| - 1], b[..|b| - 1]);
        (a[|a| - 1] == b[|b| - 1] && IsSubsequence(a', b')) || IsSubsequence(a, b'))
  }

  lemma SubsequenceGrows<T>(a: seq<T>, b: seq<T>, x: T)
    requires IsSubsequence(a, b)
    ensures IsSubsequence(a, b + [x]) && IsSubsequence(a + [x], b + [x])
  {
    assert (a + [x])[..|a|] == a && (b + [x])[..|b|] == b;
  }

  lemma {:induction false} SubsequenceDrops<T>(a: seq<T>, x: T, c: seq<T>, b: seq<T>)
    requires IsSubsequence(a + [x] + c, b)
    ensures IsSubsequence(a + c, b)
  {
    var s, b' := a + [x] + c, b[..|b| - 1];
    assert b == b' + [b[|b| - 1]];
    if IsSubsequence(s, b') {
      SubsequenceDrops(a, x, c, b');
      SubsequenceGrows(a + c, b', b[|b| - 1]);
    } else if c == [] {
      assert s[..|s| - 1] == a + c;
      SubsequenceGrows(a + c, b', b[|b| - 1]);
    } else {
      var c', y := c[..|c| - 1], c[|c| - 1];
      assert s[..|s| - 1] == a + [x] + c' && a + c == a + c' + [y];
      SubsequenceDrops(a, x, c', b');
      SubsequenceGrows(a + c', b', y);
    }
  }

  lemma {:induction false} SubsequenceLength<T>(a: seq<T>, b: seq<T>)
    requires IsSubsequence(a, b)
    ensures |a| <= |b| && (|a| == |b| ==> a == b)
  {
    if a != [] {
      var a', b' := a[..|a| - 1], b[..|b| - 1];
      if IsSubsequence(a, b') {
        SubsequenceLength(a, b');
      } else {
        SubsequenceLength(a', b');
        assert a == a' + [a[|a| - 1]] && b == b' + [b[|b| - 1]];
      }
    }
  }

  // ---- One session

  function InFlight(p: Phase): seq<Frame> {
    if p.Holding? || p.Writing? then [p.frame] else []
  }

  /** What the web client has, will get next, and may still get. */
  function Delivered(s: Session): seq<Frame> {
    s.log.written + InFlight(s.phase) + s.frames
  }

  /** Each channel is closed at most once, and its closed flag tells how often. */
  ghost predicate ClosedOnce(s: Session) {
    s.log.readyCloses == (if s.webReady then 1 else 0) && s.log.doneCloses == (if s.done then 1 else 0)
  }

  ghost predicate Buffered(s: Session) {
    |s.frames| <= FRAME_BUFFER_SIZE && s.log.accepted == s.log.taken + s.frames
  }

  /** Nothing is taken, let alone written, before webReady. */
  ghost predicate ReadyFirst(s: Session) {
    && (!s.webReady ==> (s.phase.Waiting? || s.phase.Exited?) && s.web.None?)
    && (s.phase.Waiting? || !s.webReady ==> s.log.taken == [] && s.log.written == [])
  }

  /** Order is kept, and every received frame is delivered, in hand, buffered, or counted as lost. */
  ghost predicate Conserved(s: Session) {
    && IsSubsequence(Delivered(s), s.log.received)
    && |s.log.received| == |Delivered(s)| + s.log.overflows + s.log.skips + s.log.failures
  }

  ghost predicate SessionInv(s: Session) {
    ClosedOnce(s) && Buffered(s) && ReadyFirst(s) && Conserved(s)
  }

  lemma AttachKeeps(s: Session, role: Role, conn: Conn)
    requires SessionInv(s)
    ensures SessionInv(Attach(s, role, conn))
  {
    assert Delivered(Attach(s, role, conn)) == Delivered(s);
    hide IsSubsequence, Delivered;
  }

  lemma DetachKeeps(s: Session, role: Role, conn: Conn)
    requires SessionInv(s)
    ensures SessionInv(Detach(s, role, conn))
  {
    assert Delivered(Detach(s, role, conn)) == Delivered(s);
    hide IsSubsequence, Delivered;
  }

  lemma OfferConserves(s: Session, f: Frame)
    requires Conserved(s)
    ensures Conserved(Offer(s, f))
  {
    SubsequenceGrows(Delivered(s), s.log.received, f);
    hide IsSubsequence;
    var s' := Offer(s, f);
    assert s'.log.received == s.log.received + [f];
    if |s.frames| < FRAME_BUFFER_SIZE {
      assert Delivered(s') == Delivered(s) + [f];
      hide Delivered;
      assert |s'.log.received| == |s.log.received| + 1;
    }
  }

  lemma OfferBuffers(s: Session, f: Frame)
    requires Buffered(s)
    ensures Buffered(Offer(s, f))
  {
    assert s.log.taken + s.frames + [f] == s.log.taken + (s.frames + [f]);
  }

  lemma OfferKeeps(s: Session, f: Frame)
    requires SessionInv(s)
    ensures SessionInv(Offer(s, f))
  {
    OfferConserves(s, f);
    OfferBuffers(s, f);
    hide Conserved, Buffered;
  }

  /** A frame in hand that is not written is the only one to disappear. */
  lemma LosesInFlight(s: Session)
    requires Conserved(s) && InFlight(s.phase) != []
    ensures IsSubsequence(s.log.written + s.frames, s.log.received)
    ensures |Delivered(s)| == |s.log.written + s.frames| + 1
  {
    SubsequenceDrops(s.log.written, s.phase.frame, s.frames, s.log.received);
  }

  /** The two ways to lose the frame in hand: no web client to write to, or a failed write. */
  predicate Loses(s: Session, move: Move) {
    (move.Look? && s.web.None?) || move == Write(false)
  }

  lemma ForwardDelivers(s: Session, move: Move)
    requires CanMove(s, move)
    ensures Delivered(Forward(s, move)) == if Loses(s, move) then s.log.written + s.frames else Delivered(s)
  {
    var s', w := Forward(s, move), s.log.written;
    if move.Take? {
      var f, rest := s.frames[0], s.frames[1..];
      assert s.frames == [f] + rest;
      assert w + [f] + rest == w + [] + ([f] + rest);
    } else {
      assert w + [] + s.frames == w + s.frames;
    }
  }

  lemma ForwardConserves(s: Session, move: Move)
    requires Conserved(s) && CanMove(s, move)
    ensures Conserved(Forward(s, move))
  {
    ForwardDelivers(s, move);
    if Loses(s, move) {
      LosesInFlight(s);
    }
    hide IsSubsequence, Delivered;
  }

  lemma ForwardBuffers(s: Session, move: Move)
    requires Buffered(s) && CanMove(s, move)
    ensures Buffered(Forward(s, move))
  {
    if move.Take? {
      var f, rest := s.frames[0], s.frames[1..];
      assert s.frames == [f] + rest;
      assert s.log.taken + ([f] + rest) == s.log.taken + [f] + rest;
    }
  }

  lemma ForwardKeeps(s: Session, move: Move)
    requires SessionInv(s) && CanMove(s, move)
    ensures SessionInv(Forward(s, move))
  {
    ForwardConserves(s, move);
    ForwardBuffers(s, move);
    hide Conserved, Buffered;
  }

  // ---- The manager

  /** A session is in the map, under its own id, exactly while done is open, that is, a slot is filled. */
  ghost predicate Lifecycle(m: Manager)
    requires WellIndexed(m)
  {
    && (forall id :: id in m.sessions ==>
          m.all[m.sessions[id]].id == id && !m.all[m.sessions[id]].done)
    && (forall n :: 0 <= n < |m.all| && !m.all[n].done ==> m.all[n].id in m.sessions && m.sessions[m.all[n].id] == n)
    && (forall n :: 0 <= n < |m.all| ==> (m.all[n].done <==> m.all[n].android.None? && m.all[n].web.None?))
  }

  ghost predicate AllKept(all: seq<Session>) {
    forall n :: 0 <= n < |all| ==> SessionInv(all[n])
  }

  ghost predicate Inv(m: Manager) {
    WellIndexed(m) && Lifecycle(m) && AllKept(m.all)
  }

  lemma RegisterKeeps(m: Manager, l: Label)
    requires WellIndexed(m) && AllKept(m.all) && l.Register?
    ensures AllKept(Step(m, l).all)
  {
    var s := NewSession(l.id, l.expiresAt);
    assert SessionInv(s);
    hide SessionInv, Attach;
    var c := GetOrCreate(m, l.id, l.expiresAt);
    AttachKeeps(c.all[c.sessions[l.id]], l.role, l.conn);
  }

  lemma StepKeepsSessions(m: Manager, l: Label)
    requires WellIndexed(m) && AllKept(m.all) && Enabled(m, l)
    ensures AllKept(Step(m, l).all)
  {
    hide SessionInv, Offer, Forward, Attach, Detach;
    match l {
      case Register(_, _, _, _) =>
        RegisterKeeps(m, l);
      case Unregister(id, role, conn) =>
        if id in m.sessions {
          DetachKeeps(m.all[m.sessions[id]], role, conn);
        }
      case Read(id, _, frame, _) =>
        if id in m.sessions {
          OfferKeeps(m.all[m.sessions[id]], frame);
        }
      case Forwarder(n, move) =>
        ForwardKeeps(m.all[n], move);
    }
  }

  /** What the map reads of a session. */
  ghost predicate SameSlots(s: Session, s': Session) {
    s.id == s'.id && s.android == s'.android && s.web == s'.web && s.done == s'.done
  }

  lemma SlotsUntouched(s: Session, f: Frame, move: Move)
    ensures SameSlots(s, Offer(s, f)) && (CanMove(s, move) ==> SameSlots(s, Forward(s, move)))
  {
  }

  lemma TouchLifecycle(m: Manager, n: nat, s: Session)
    requires WellIndexed(m) && Lifecycle(m) && n < |m.all| && SameSlots(m.all[n], s)
    ensures Lifecycle(m.(all := m.all[n := s]))
  {
  }

  lemma RegisterLifecycle(m: Manager, l: Label)
    requires WellIndexed(m) && Lifecycle(m) && l.Register? && l.id in m.sessions
    ensures Lifecycle(Step(m, l))
  {
    hide Forward, Offer, Detach;
  }

  lemma CreateLifecycle(m: Manager, l: Label)
    requires WellIndexed(m) && Lifecycle(m) && l.Register? && l.id !in m.sessions
    ensures Lifecycle(Step(m, l))
  {
    hide Forward, Offer, Detach;
  }

  lemma UnregisterLifecycle(m: Manager, l: Label)
    requires WellIndexed(m) && Lifecycle(m) && l.Unregister? && l.id in m.sessions
    ensures Lifecycle(Step(m, l))
  {
    hide Forward, Offer, Attach;
  }

  lemma StepKeepsLifecycle(m: Manager, l: Label)
    requires WellIndexed(m) && Lifecycle(m) && Enabled(m, l)
    ensures Lifecycle(Step(m, l))
  {
    match l {
      case Register(id, _, _, _) =>
        if id in m.sessions {
          RegisterLifecycle(m, l);
        } else {
          CreateLifecycle(m, l);
        }
        hide Step, Lifecycle;
      case Unregister(id, _, _) =>
        if id in m.sessions {
          UnregisterLifecycle(m, l);
        }
        hide Lifecycle, Detach;
      case Read(id, _, frame, _) =>
        if id in m.sessions {
          var n := m.sessions[id];
          SlotsUntouched(m.all[n], frame, Wake);
          TouchLifecycle(m, n, Offer(m.all[n], frame));
        }
        hide Offer, Lifecycle;
      case Forwarder(n, move) =>
        SlotsUntouched(m.all[n], Frame(Other, ""), move);
        TouchLifecycle(m, n, Forward(m.all[n], move));
        hide Forward, CanMove, Lifecycle;
    }
  }

  /** Every session, at every point of every run. */
  lemma {:induction false} RunKeeps(ls: seq<Label>)
    requires IsRun(START, ls)
    ensures Inv(Exec(START, ls))
  {
    if ls != [] {
      RunKeeps(ls[..|ls| - 1]);
      var m, l := Exec(START, ls[..|ls| - 1]), ls[|ls| - 1];
      StepKeepsSessions(m, l);
      StepKeepsLifecycle(m, l);
    }
  }
}
