/** The session objects and the manager that maps ids to them; every method is one atomic step. */
module SyncManagers {
  import opened Wrappers
  import opened Relay

  class SyncSession {
    const id: string
    const expiresAt: Time
    /** The position of this object among all that were ever created. */
    ghost const num: nat
    var android: Option<Conn>
    var web: Option<Conn>
    var webReady: bool
    var done: bool
    var frames: seq<Frame>
    var phase: Phase
    ghost var log: Log

    ghost function Model(): Session
      reads this
    {
      Session(id, expiresAt, android, web, webReady, done, frames, phase, log)
    }

    constructor (id: string, expiresAt: Time, ghost num: nat)
      ensures Model() == NewSession(id, expiresAt) && this.num == num
    {
      this.id, this.expiresAt, this.num := id, expiresAt, num;
      android, web, webReady, done, frames, phase := None, None, false, false, [], Waiting;
      log := Log([], [], [], [], 0, 0, 0, 0, 0);
    }

    method Attach(role: Role, conn: Conn)
      modifies this
      ensures Model() == Relay.Attach(old(Model()), role, conn)
    {
      match role {
        case Android =>
          android := Some(conn);
        case Web =>
          web := Some(conn);
          if !webReady {
            webReady := true;
            log := log.(readyCloses := log.readyCloses + 1);
          }
      }
    }

    /** Returns whether both slots are empty now. */
    method Detach(role: Role, conn: Conn) returns (bothNil: bool)
      modifies this
      ensures Model() == Relay.Detach(old(Model()), role, conn)
      ensures bothNil <==> android.None? && web.None?
    {
      match role {
        case Android =>
          if android == Some(conn) {
            android := None;
          }
        case Web =>
          if web == Some(conn) {
            web := None;
          }
      }
      bothNil := android.None? && web.None?;
      if bothNil && !done {
        done := true;
        log := log.(doneCloses := log.doneCloses + 1);
      }
    }

    method Offer(f: Frame) returns (sent: bool)
      modifies this
      ensures Model() == Relay.Offer(old(Model()), f)
      ensures sent <==> |old(frames)| < FRAME_BUFFER_SIZE
    {
      log := log.(received := log.received + [f]);
      if |frames| < FRAME_BUFFER_SIZE {
        frames := frames + [f];
        log := log.(accepted := log.accepted + [f]);
        return true;
      }
      log := log.(overflows := log.overflows + 1);
      return false;
    }

    /** One step of runForwarder, by the arm or statement it executes. */
    method Forward(move: Move)
      requires CanMove(Model(), move)
      modifies this
      ensures Model() == Relay.Forward(old(Model()), move)
    {
      match move {
        case Wake =>
          phase := Looping;
        case TimeOut =>
          phase := Exited;
        case Stop =>
          phase := Exited;
        case Take =>
          phase := Holding(frames[0]);
          log := log.(taken := log.taken + [frames[0]]);
          frames := frames[1..];
        case Look =>
          if web.None? {
            phase := Looping;
            log := log.(skips := log.skips + 1);
          } else {
            phase := Writing(phase.frame);
          }
        case Write(ok) =>
          if ok {
            log := log.(written := log.written + [phase.frame]);
          } else {
            log := log.(failures := log.failures + 1);
          }
          phase := Looping;
      }
    }
  }

  class SyncManager {
    var sessions: map<string, SyncSession>
    /** Every session ever created; a forwarder may outlive its session's place in the map. */
    ghost var all: seq<SyncSession>

    ghost predicate Valid()
      reads this
    {
      && (forall n :: 0 <= n < |all| ==> all[n].num == n)
      && (forall id :: id in sessions ==> sessions[id].num < |all| && all[sessions[id].num] == sessions[id])
    }

    ghost function Model(): (m: Manager)
      reads this, all
      ensures Valid() ==> WellIndexed(m)
    {
      Manager(map id | id in sessions :: sessions[id].num,
              seq(|all|, n requires 0 <= n < |all| reads this, all => all[n].Model()))
    }

    constructor ()
      ensures Valid() && Model() == START
    {
      sessions, all := map[], [];
    }

    method GetOrCreate(id: string, expiresAt: Time) returns (s: SyncSession)
      requires Valid()
      modifies this
      ensures Valid() && id in sessions && s == sessions[id] && (s in old(all) || fresh(s))
      ensures Model() == Relay.GetOrCreate(old(Model()), id, expiresAt)
    {
      if id in sessions {
        return sessions[id];
      }
      s := new SyncSession(id, expiresAt, |all|);
      sessions, all := sessions[id := s], all + [s];
    }

    method Register(id: string, role: Role, conn: Conn, expiresAt: Time)
      requires Valid()
      modifies this, all
      ensures Valid() && Model() == Step(old(Model()), Label.Register(id, role, conn, expiresAt))
    {
      var s := GetOrCreate(id, expiresAt);
      s.Attach(role, conn);
    }

    /** One turn of ReadPump's loop; false means the pump stops. */
    method ReadFrame(id: string, role: Role, frame: Frame, now: Time) returns (more: bool)
      requires Valid()
      modifies all
      ensures Valid() && Model() == Step(old(Model()), Read(id, role, frame, now))
      ensures more <==> role.Web? || frame.kind.Other? || (id in sessions && now <= sessions[id].expiresAt)
    {
      if role.Web? || frame.kind.Other? {
        return true;
      }
      if id !in sessions {
        return false;
      }
      var s := sessions[id];
      if now > s.expiresAt {
        return false;
      }
      var _ := s.Offer(frame);
      return true;
    }

    method Unregister(id: string, role: Role, conn: Conn)
      requires Valid()
      modifies this, all
      ensures Valid() && Model() == Step(old(Model()), Label.Unregister(id, role, conn))
    {
      if id !in sessions {
        return;
      }
      hide Relay.Detach;
      ghost var before, n := Model(), sessions[id].num;
      var bothNil := sessions[id].Detach(role, conn);
      assert Model().all == before.all[n := Relay.Detach(before.all[n], role, conn)];
      if bothNil {
        sessions := sessions - {id};
        assert Model().sessions == before.sessions - {id};
      }
    }
  }
}
