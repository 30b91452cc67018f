/**
 Linking a web client: it creates a session and long-polls; an Android device authorises it. Every
 function here is one critical section or one database statement.
 */
module WebSessions {
  import opened Wrappers

  type Time = int

  /** What an authorisation stores: the sealed keys, the user, and the new web device. */
  datatype Fields = Fields(ciphertext: string, nonce: string, androidPub: string, user: string, webDevice: string)

  const SECOND := 1_000_000_000
  const SESSION_TTL := 120 * SECOND

  const NO_FIELDS := Fields("", "", "", "", "")

  datatype Row = Row(authorized: bool, fields: Fields, expiresAt: Time)

  /** A notify channel, under the key it was made for, and how often it has been closed. */
  datatype Channel = Channel(key: string, closes: nat)

  /** notify maps the raw session id of a request to a channel, by position in channels. */
  datatype Shared = Shared(rows: map<string, Row>, notify: map<string, nat>, channels: seq<Channel>)

  predicate WellIndexed(s: Shared) {
    forall key :: key in s.notify ==> s.notify[key] < |s.channels|
  }

  function WithChannel(s: Shared, key: string): Shared {
    s.(notify := s.notify[key := |s.channels|], channels := s.channels + [Channel(key, 0)])
  }

  function Created(s: Shared, id: string, expiresAt: Time): Shared {
    WithChannel(s.(rows := s.rows[id := Row(false, NO_FIELDS, expiresAt)]), id)
  }

  function Taken(s: Shared, key: string): Shared {
    if key in s.notify then s else WithChannel(s, key)
  }

  /** The update is conditional on status = pending. */
  function Stored(s: Shared, id: string, f: Fields): Shared {
    if id in s.rows && !s.rows[id].authorized then s.(rows := s.rows[id := s.rows[id].(authorized := true, fields := f)])
    else s
  }

  function Closed(c: Channel): Channel {
    c.(closes := c.closes + 1)
  }

  function Notified(s: Shared, key: string): Shared
    requires WellIndexed(s)
  {
    if key in s.notify then
      var n := s.notify[key];
      Shared(s.rows, s.notify - {key}, s.channels[n := Closed(s.channels[n])])
    else s
  }

  function Forgotten(s: Shared, key: string): Shared {
    s.(notify := s.notify - {key})
  }

  // ---- The checks that come first

  datatype AuthCheck = Proceed | MissingFields | NotFound | Expired | AlreadyAuthorized

  predicate Complete(f: Fields) {
    f.ciphertext != "" && f.nonce != "" && f.androidPub != ""
  }

  function CheckAuthorize(parse: string -> Option<string>, s: Shared, key: string, f: Fields, now: Time): AuthCheck {
    if !Complete(f) then MissingFields
    else match parse(key)
         case None => NotFound
         case Some(id) =>
           if id !in s.rows then NotFound
           else if now > s.rows[id].expiresAt then Expired
           else if s.rows[id].authorized then AlreadyAuthorized
           else Proceed
  }

  datatype PollCheck = PollNotFound | PollExpired | Ready(fields: Fields) | Wait

  /** The code dereferences the row without a nil check, so the session must exist. */
  predicate CanPoll(parse: string -> Option<string>, s: Shared, key: string) {
    parse(key).Some? ==> parse(key).value in s.rows
  }

  function CheckPoll(parse: string -> Option<string>, s: Shared, key: string, now: Time): PollCheck
    requires CanPoll(parse, s, key)
  {
    match parse(key)
    case None => PollNotFound
    case Some(id) =>
      if now > s.rows[id].expiresAt then PollExpired
      else if s.rows[id].authorized then Ready(s.rows[id].fields)
      else Wait
  }

  // ---- Requests in progress

  /** An authoriser that passed its checks; Updated means the update returned, whatever it matched. */
  datatype AuthPhase = Checked | Updated | Done | Failed
  datatype Authoriser = Authoriser(key: string, id: string, fields: Fields, phase: AuthPhase)

  datatype PollPhase = Polled | Waiting(channel: nat) | Answered(fields: Fields) | TimedOut | PollFailed
  datatype Poller = Poller(key: string, id: string, phase: PollPhase)

  /** clock is the last reading that any step took. */
  datatype State = State(shared: Shared, authorisers: seq<Authoriser>, pollers: seq<Poller>, clock: Time)

  const START := State(Shared(map[], map[], []), [], [], 0)

  datatype Label =
    | Create(id: string, now: Time)
    | Forget(id: string, now: Time)
    | AuthBegin(key: string, fields: Fields, now: Time)
    | AuthFail(a: nat)
    | AuthUpdate(a: nat)
    | AuthNotify(a: nat)
    | PollBegin(key: string, now: Time)
    | PollTake(p: nat)
    | PollWake(p: nat, readOk: bool)
    | PollTimeout(p: nat)

  predicate AuthAt(st: State, a: nat, phase: AuthPhase) {
    a < |st.authorisers| && st.authorisers[a].phase == phase
  }

  predicate WaitsOn(st: State, p: nat) {
    && p < |st.pollers| && st.pollers[p].phase.Waiting?
    && st.pollers[p].phase.channel < |st.shared.channels|
  }

  /** The clock that a step reads, or the last one read. */
  function Reading(st: State, l: Label): Time {
    match l
    case Create(_, now) => now
    case Forget(_, now) => now
    case AuthBegin(_, _, now) => now
    case PollBegin(_, now) => now
    case _ => st.clock
  }

  /** The clock never goes back. */
  predicate Enabled(parse: string -> Option<string>, st: State, l: Label) {
    Reading(st, l) >= st.clock && IsReady(parse, st, l)
  }

  predicate IsReady(parse: string -> Option<string>, st: State, l: Label) {
    match l
    case Create(id, _) => parse(id) == Some(id) && id !in st.shared.rows
    case Forget(id, now) => id in st.shared.rows && now >= st.shared.rows[id].expiresAt + SECOND
    case AuthBegin(_, _, _) => true
    case AuthFail(a) => AuthAt(st, a, Checked)
    case AuthUpdate(a) => AuthAt(st, a, Checked)
    case AuthNotify(a) => AuthAt(st, a, Updated)
    case PollBegin(key, _) => CanPoll(parse, st.shared, key)
    case PollTake(p) => p < |st.pollers| && st.pollers[p].phase.Polled?
    case PollWake(p, _) =>
      WaitsOn(st, p) && st.shared.channels[st.pollers[p].phase.channel].closes > 0 && st.pollers[p].id in st.shared.rows
    case PollTimeout(p) => WaitsOn(st, p)
  }

  function SetAuth(st: State, a: nat, phase: AuthPhase): State
    requires a < |st.authorisers|
  {
    st.(authorisers := st.authorisers[a := st.authorisers[a].(phase := phase)])
  }

  function SetPoll(st: State, p: nat, phase: PollPhase): State
    requires p < |st.pollers|
  {
    st.(pollers := st.pollers[p := st.pollers[p].(phase := phase)])
  }

  function Step(parse: string -> Option<string>, st: State, l: Label): (st': State)
    requires WellIndexed(st.shared) && Enabled(parse, st, l)
    ensures WellIndexed(st'.shared)
  {
    Act(parse, st, l).(clock := Reading(st, l))
  }

  function Act(parse: string -> Option<string>, st: State, l: Label): (st': State)
    requires WellIndexed(st.shared) && IsReady(parse, st, l)
    ensures WellIndexed(st'.shared)
  {
    var s := st.shared;
    match l
    case Create(id, now) => st.(shared := Created(s, id, now + SESSION_TTL))
    case Forget(id, _) => st.(shared := Forgotten(s, id))
    case AuthBegin(key, f, now) =>
      if CheckAuthorize(parse, s, key, f, now).Proceed? then
        st.(authorisers := st.authorisers + [Authoriser(key, parse(key).value, f, Checked)])
      else st
    case AuthFail(a) => SetAuth(st, a, Failed)
    case AuthUpdate(a) =>
      SetAuth(st.(shared := Stored(s, st.authorisers[a].id, st.authorisers[a].fields)), a, Updated)
    case AuthNotify(a) => SetAuth(st.(shared := Notified(s, st.authorisers[a].key)), a, Done)
    case PollBegin(key, now) =>
      var phase := match CheckPoll(parse, s, key, now)
                   case Ready(f) => Answered(f)
                   case Wait => Polled
                   case _ => PollFailed;
      if parse(key).None? then st else st.(pollers := st.pollers + [Poller(key, parse(key).value, phase)])
    case PollTake(p) =>
      var t := Taken(s, st.pollers[p].key);
      SetPoll(st.(shared := t), p, Waiting(t.notify[st.pollers[p].key]))
    case PollWake(p, readOk) =>
      SetPoll(st, p, if readOk then Answered(s.rows[st.pollers[p].id].fields) else PollFailed)
    case PollTimeout(p) => SetPoll(st, p, TimedOut)
  }

  ghost predicate IsRun(parse: string -> Option<string>, st: State, ls: seq<Label>)
    requires WellIndexed(st.shared)
    decreases |ls|, 0
  {
    ls == [] ||
    (IsRun(parse, st, ls[..|ls| - 1]) && Enabled(parse, Exec(parse, st, ls[..|ls| - 1]), ls[|ls| - 1]))
  }

  ghost function Exec(parse: string -> Option<string>, st: State, ls: seq<Label>): (st': State)
    requires WellIndexed(st.shared) && IsRun(parse, st, ls)
    ensures WellIndexed(st'.shared)
    decreases |ls|, 1
  {
    if ls == [] then st else Step(parse, Exec(parse, st, ls[..|ls| - 1]), ls[|ls| - 1])
  }

  // ---- The service

  class WebSessionService {
    var rows: map<string, Row>
    var notifyCh: map<string, nat>
    ghost var channels: seq<Channel>
    var made: nat

    ghost predicate Valid()
      reads this
    {
      made == |channels| && WellIndexed(Model())
    }

    ghost function Model(): Shared
      reads this
    {
      Shared(rows, notifyCh, channels)
    }

    constructor ()
      ensures Valid() && Model() == START.shared
    {
      rows, notifyCh, channels, made := map[], map[], [], 0;
    }

    /** make(chan struct{}), stored under the key. */
    method MakeChannel(key: string)
      requires Valid()
      modifies this
      ensures Valid() && Model() == WithChannel(old(Model()), key)
    {
      notifyCh, channels, made := notifyCh[key := made], channels + [Channel(key, 0)], made + 1;
    }

    method CreateSession(id: string, now: Time) returns (expiresAt: Time)
      requires Valid() && id !in rows
      modifies this
      ensures Valid() && Model() == Created(old(Model()), id, expiresAt) && expiresAt == now + SESSION_TTL
    {
      expiresAt := now + SESSION_TTL;
      rows := rows[id := Row(false, NO_FIELDS, expiresAt)];
      MakeChannel(id);
    }

    method ForgetChannel(id: string)
      requires Valid()
      modifies this
      ensures Valid() && Model() == Forgotten(old(Model()), id)
    {
      notifyCh := notifyCh - {id};
    }

    method BeginPoll(parse: string -> Option<string>, key: string, now: Time) returns (check: PollCheck)
      requires CanPoll(parse, Model(), key)
      ensures check == CheckPoll(parse, Model(), key, now)
    {
      var id := parse(key);
      if id.None? {
        return PollNotFound;
      }
      var session := rows[id.value];
      if now > session.expiresAt {
        return PollExpired;
      }
      return if session.authorized then Ready(session.fields) else Wait;
    }

    method TakeChannel(key: string) returns (ch: nat)
      requires Valid()
      modifies this
      ensures Valid() && Model() == Taken(old(Model()), key) && ch == Model().notify[key]
    {
      if key !in notifyCh {
        MakeChannel(key);
      }
      return notifyCh[key];
    }

    method BeginAuthorize(parse: string -> Option<string>, key: string, f: Fields, now: Time) returns (check: AuthCheck)
      ensures check == CheckAuthorize(parse, Model(), key, f, now)
    {
      if f.ciphertext == "" || f.nonce == "" || f.androidPub == "" {
        return MissingFields;
      }
      var id := parse(key);
      if id.None? || id.value !in rows {
        return NotFound;
      }
      var session := rows[id.value];
      if now > session.expiresAt {
        return Expired;
      }
      if session.authorized {
        return AlreadyAuthorized;
      }
      return Proceed;
    }

    /** Succeeds without an error even when no pending row matches. */
    method Authorize(id: string, f: Fields)
      requires Valid()
      modifies this
      ensures Valid() && Model() == Stored(old(Model()), id, f)
    {
      if id in rows && !rows[id].authorized {
        rows := rows[id := Row(true, f, rows[id].expiresAt)];
      }
    }

    method Notify(key: string)
      requires Valid()
      modifies this
      ensures Valid() && Model() == Notified(old(Model()), key)
    {
      if key in notifyCh {
        var ch := notifyCh[key];
        channels := channels[ch := Closed(channels[ch])];
        notifyCh := notifyCh - {key};
      }
    }
  }
}
