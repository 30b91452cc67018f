/**
 The frame relay between an Android client and the web client it authorised: a bounded buffer, one
 forwarder per session, and two connection slots. Each function below is one atomic step.
 */
module Relay {
  import opened Wrappers

  const FRAME_BUFFER_SIZE := 512

  type Time = int
  /** A connection by identity; a session id can be registered by many of them over time. */
  type Conn = nat

  datatype Role = Android | Web
  datatype Kind = Text | Binary | Other
  datatype Frame = Frame(kind: Kind, payload: string)

  /** Where runForwarder is: before its first select, between frames, or with a frame in hand. */
  datatype Phase = Waiting | Looping | Holding(frame: Frame) | Writing(frame: Frame) | Exited

  /** What happened to a session so far; none of it is read by a step. */
  datatype Log = Log(
    received: seq<Frame>, accepted: seq<Frame>, taken: seq<Frame>, written: seq<Frame>,
    overflows: nat, skips: nat, failures: nat, readyCloses: nat, doneCloses: nat)

  datatype Session = Session(
    id: string, expiresAt: Time, android: Option<Conn>, web: Option<Conn>,
    webReady: bool, done: bool, frames: seq<Frame>, phase: Phase, log: Log)

  function NewSession(id: string, expiresAt: Time): Session {
    Session(id, expiresAt, None, None, false, false, [], Waiting, Log([], [], [], [], 0, 0, 0, 0, 0))
  }

  // ---- Steps on one session

  /** Fill a slot; the first web connection closes webReady. */
  function Attach(s: Session, role: Role, conn: Conn): Session {
    match role
    case Android => s.(android := Some(conn))
    case Web =>
      if s.webReady then s.(web := Some(conn))
      else s.(web := Some(conn), webReady := true, log := s.log.(readyCloses := s.log.readyCloses + 1))
  }

  /** Empty the slot if it holds this very connection, and close done once both are empty. */
  function Detach(s: Session, role: Role, conn: Conn): Session {
    var s' := match role
              case Android => if s.android == Some(conn) then s.(android := None) else s
              case Web => if s.web == Some(conn) then s.(web := None) else s;
    if s'.android.Some? || s'.web.Some? || s'.done then s'
    else s'.(done := true, log := s'.log.(doneCloses := s'.log.doneCloses + 1))
  }

  /** The non-blocking send. */
  function Offer(s: Session, f: Frame): Session {
    var log := s.log.(received := s.log.received + [f]);
    if |s.frames| < FRAME_BUFFER_SIZE then
      s.(frames := s.frames + [f], log := log.(accepted := log.accepted + [f]))
    else
      s.(log := log.(overflows := log.overflows + 1))
  }

  datatype Move = Wake | TimeOut | Stop | Take | Look | Write(ok: bool)

  /** The select arms that are ready, and the forwarder's own straight-line steps. */
  predicate CanMove(s: Session, move: Move) {
    match move
    case Wake => s.phase.Waiting? && s.webReady
    case TimeOut => s.phase.Waiting?
    case Stop => (s.phase.Waiting? || s.phase.Looping?) && s.done
    case Take => s.phase.Looping? && s.frames != []
    case Look => s.phase.Holding?
    case Write(_) => s.phase.Writing?
  }

  function Forward(s: Session, move: Move): Session
    requires CanMove(s, move)
  {
    match move
    case Wake => s.(phase := Looping)
    case TimeOut => s.(phase := Exited)
    case Stop => s.(phase := Exited)
    case Take =>
      var f := s.frames[0];
      s.(frames := s.frames[1..], phase := Holding(f), log := s.log.(taken := s.log.taken + [f]))
    case Look =>
      if s.web.Some? then s.(phase := Writing(s.phase.frame))
      else s.(phase := Looping, log := s.log.(skips := s.log.skips + 1))
    case Write(ok) =>
      if ok then s.(phase := Looping, log := s.log.(written := s.log.written + [s.phase.frame]))
      else s.(phase := Looping, log := s.log.(failures := s.log.failures + 1))
  }

  // ---- The manager

  /** all lists every session object ever created; sessions is the map, by position in all. */
  datatype Manager = Manager(sessions: map<string, nat>, all: seq<Session>)

  const START := Manager(map[], [])

  datatype Label =
    | Register(id: string, role: Role, conn: Conn, expiresAt: Time)
    | Unregister(id: string, role: Role, conn: Conn)
    | Read(id: string, role: Role, frame: Frame, now: Time)
    | Forwarder(n: nat, move: Move)

  predicate WellIndexed(m: Manager) {
    forall id :: id in m.sessions ==> m.sessions[id] < |m.all|
  }

  function GetOrCreate(m: Manager, id: string, expiresAt: Time): (m': Manager)
    requires WellIndexed(m)
    ensures WellIndexed(m') && id in m'.sessions
  {
    if id in m.sessions then m
    else Manager(m.sessions[id := |m.all|], m.all + [NewSession(id, expiresAt)])
  }

  /** ReadPump hands the frame to the session it finds under the id. */
  predicate Reaches(m: Manager, l: Label, n: nat)
    requires WellIndexed(m)
  {
    && l.Read? && l.role.Android? && !l.frame.kind.Other?
    && l.id in m.sessions && m.sessions[l.id] == n && l.now <= m.all[n].expiresAt
  }

  predicate Enabled(m: Manager, l: Label) {
    l.Forwarder? ==> l.n < |m.all| && CanMove(m.all[l.n], l.move)
  }

  function Step(m: Manager, l: Label): (m': Manager)
    requires WellIndexed(m) && Enabled(m, l)
    ensures WellIndexed(m') && |m.all| <= |m'.all|
  {
    match l
    case Register(id, role, conn, expiresAt) =>
      var c := GetOrCreate(m, id, expiresAt);
      var n := c.sessions[id];
      c.(all := c.all[n := Attach(c.all[n], role, conn)])
    case Unregister(id, role, conn) =>
      if id !in m.sessions then m
      else
        var n := m.sessions[id];
        var s := Detach(m.all[n], role, conn);
        Manager(if s.android.None? && s.web.None? then m.sessions - {id} else m.sessions, m.all[n := s])
    case Read(id, _, frame, _) =>
      if id in m.sessions && Reaches(m, l, m.sessions[id]) then
        var n := m.sessions[id];
        m.(all := m.all[n := Offer(m.all[n], frame)])
      else m
    case Forwarder(n, move) =>
      m.(all := m.all[n := Forward(m.all[n], move)])
  }

  /** A run from m: every label is enabled where it is taken. */
  ghost predicate IsRun(m: Manager, ls: seq<Label>)
    requires WellIndexed(m)
    decreases |ls|, 0
  {
    ls == [] || (IsRun(m, ls[..|ls| - 1]) && Enabled(Exec(m, ls[..|ls| - 1]), ls[|ls| - 1]))
  }

  ghost function Exec(m: Manager, ls: seq<Label>): (m': Manager)
    requires WellIndexed(m) && IsRun(m, ls)
    ensures WellIndexed(m') && |m.all| <= |m'.all|
    decreases |ls|, 1
  {
    if ls == [] then m else Step(Exec(m, ls[..|ls| - 1]), ls[|ls| - 1])
  }
}
