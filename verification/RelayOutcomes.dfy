/** What registering, reading, leaving and forwarding do to a session, and to no other. */
module RelayOutcomes {
  import opened Wrappers
  import opened Relay
  import opened RelayTheorems
  import opened RelayGuarantees

  function OtherRole(role: Role): Role {
    if role.Android? then Web else Android
  }

  /** Slots apart, the sessions agree in everything that frames pass through. */
  predicate SamePipe(s: Session, s': Session) {
    && s'.id == s.id && s'.expiresAt == s.expiresAt && s'.frames == s.frames && s'.phase == s.phase
    && s'.log.received == s.log.received && s'.log.written == s.log.written
  }

  /** The new connection takes its slot, whoever held it; only a new session gets the given expiry. */
  lemma RegisterTakesSlot(m: Manager, id: string, role: Role, conn: Conn, expiresAt: Time)
    requires WellIndexed(m)
    ensures var m' := Step(m, Register(id, role, conn, expiresAt));
            && id in m'.sessions && Slot(m'.all[m'.sessions[id]], role) == Some(conn)
            && if id in m.sessions then
                 var s, s' := m.all[m.sessions[id]], m'.all[m'.sessions[id]];
                 m'.sessions == m.sessions && SamePipe(s, s') && Slot(s', OtherRole(role)) == Slot(s, OtherRole(role))
                 && s'.done == s.done && (s'.webReady <==> s.webReady || role.Web?)
               else
                 var s' := m'.all[m'.sessions[id]];
                 && m'.sessions[id] == |m.all| && s'.expiresAt == expiresAt && s'.phase == Waiting
                 && s'.frames == [] && s'.log.received == [] && Slot(s', OtherRole(role)) == None
                 && !s'.done && (s'.webReady <==> role.Web?)
  {
  }

  lemma RunKeepsOpen(ls: seq<Label>)
    requires IsRun(START, ls)
    ensures forall id :: id in Exec(START, ls).sessions ==> !Exec(START, ls).all[Exec(START, ls).sessions[id]].done
  {
    RunKeeps(ls);
    hide Exec, IsRun, AllKept;
  }

  /** A connection that leaves after another one took its slot evicts neither that one nor the session. */
  lemma ReplacementSurvives(ls: seq<Label>, id: string, role: Role, leaver: Conn, conn: Conn, expiresAt: Time)
    requires IsRun(START, ls) && leaver != conn
    ensures var m := Step(Exec(START, ls), Register(id, role, conn, expiresAt));
            var m' := Step(m, Unregister(id, role, leaver));
            && id in m'.sessions && m'.sessions[id] == m.sessions[id]
            && Slot(m'.all[m'.sessions[id]], role) == Some(conn) && !m'.all[m'.sessions[id]].done
  {
    RunKeepsOpen(ls);
    hide Exec, IsRun;
  }

  /** The holder of a slot that leaves empties this slot alone; the session stays while the other is filled. */
  lemma UnregisterFreesSlot(ls: seq<Label>, id: string, role: Role, conn: Conn)
    requires IsRun(START, ls) && id in Exec(START, ls).sessions
    requires Slot(Exec(START, ls).all[Exec(START, ls).sessions[id]], role) == Some(conn)
    ensures var m := Exec(START, ls);
            var m' := Step(m, Unregister(id, role, conn));
            var s, s' := m.all[m.sessions[id]], m'.all[m.sessions[id]];
            && Slot(s', role) == None && Slot(s', OtherRole(role)) == Slot(s, OtherRole(role)) && SamePipe(s, s')
            && s'.webReady == s.webReady && (s'.done <==> Slot(s, OtherRole(role)) == None)
            && (id in m'.sessions <==> Slot(s, OtherRole(role)) != None)
  {
    RunKeeps(ls);
    hide Exec, IsRun, AllKept;
  }

  /** A frame is taken up exactly if Android sent data to a session that exists and has not expired. */
  lemma ReadOffers(m: Manager, id: string, role: Role, f: Frame, now: Time)
    requires WellIndexed(m)
    ensures var m' := Step(m, Read(id, role, f, now));
            if role != Android || f.kind == Other || id !in m.sessions || now > m.all[m.sessions[id]].expiresAt then m' == m
            else
              var s, s' := m.all[m.sessions[id]], m'.all[m.sessions[id]];
              && m'.sessions == m.sessions && s'.log.received == s.log.received + [f]
              && s'.frames == (if |s.frames| < 512 then s.frames + [f] else s.frames)
              && s'.android == s.android && s'.web == s.web && s'.phase == s.phase && s'.done == s.done
  {
  }

  /** The session that a step is about, if it exists. */
  predicate IsAbout(m: Manager, l: Label, n: nat) {
    match l
    case Forwarder(k, _) => k == n
    case _ => l.id in m.sessions && m.sessions[l.id] == n
  }

  /** No step changes any other session. */
  lemma OthersUntouched(m: Manager, l: Label, n: nat)
    requires WellIndexed(m) && Enabled(m, l) && n < |m.all| && !IsAbout(m, l, n)
    ensures n < |Step(m, l).all| && Step(m, l).all[n] == m.all[n]
  {
    hide Attach, Detach, Offer, Forward, CanMove;
  }

  /** The forwarder starts only when web is ready, and once started it returns only when the session is over. */
  lemma ForwarderRunsToTheEnd(s: Session, move: Move)
    requires CanMove(s, move)
    ensures var s' := Forward(s, move);
            && (s.phase.Waiting? && !s'.phase.Waiting? && !s'.phase.Exited? ==> s.webReady)
            && (!s.phase.Waiting? && s'.phase.Exited? ==> s.done)
            && (s.phase.Waiting? && s'.phase.Exited? ==> s.done || move == TimeOut)
            && (move == Wake ==> s'.phase.Looping?) && (move in {Move.TimeOut, Stop} ==> s'.phase.Exited?)
            && s'.android == s.android && s'.web == s.web && s'.done == s.done && s'.webReady == s.webReady
  {
  }

  /** A frame in hand goes to whoever is web when the forwarder looks, and is written once if the write succeeds. */
  lemma FrameInHandIsWritten(s: Session, ok: bool)
    requires s.phase.Holding? && s.web.Some?
    ensures CanMove(s, Look) && CanMove(Forward(s, Look), Write(ok))
    ensures var s' := Forward(Forward(s, Look), Write(ok));
            && s'.phase == Looping && s'.frames == s.frames
            && s'.log.written == s.log.written + (if ok then [s.phase.frame] else [])
  {
  }
}
