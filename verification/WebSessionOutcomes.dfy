/** What one request of a web client or of its authoriser is answered, and whom a notification wakes. */
module WebSessionOutcomes {
  import opened Wrappers
  import opened WebSessions
  import opened WebSessionGuarantees

  /** A new session is pending for two minutes, without fields, and has an open channel of its own. */
  lemma CreateOpensSession(parse: string -> Option<string>, st: State, id: string, now: Time)
    requires WellIndexed(st.shared) && Enabled(parse, st, Create(id, now))
    ensures var s := Step(parse, st, Create(id, now)).shared;
            && id in s.rows && !s.rows[id].authorized && s.rows[id].expiresAt == now + 120_000_000_000
            && s.rows[id].fields == Fields("", "", "", "", "")
            && id in s.notify && s.notify[id] == |st.shared.channels| && |s.channels| == |st.shared.channels| + 1
            && s.channels[s.notify[id]] == Channel(id, 0)
  {
  }

  /** A poll of an expired session fails, of an authorised one is answered at once, and of a pending one goes on. */
  lemma PollIsAnswered(parse: string -> Option<string>, st: State, key: string, now: Time)
    requires WellIndexed(st.shared) && Enabled(parse, st, PollBegin(key, now)) && parse(key).Some?
    ensures var st', row := Step(parse, st, PollBegin(key, now)), st.shared.rows[parse(key).value];
            var phase := if now > row.expiresAt then PollFailed else if row.authorized then Answered(row.fields) else Polled;
            st'.shared == st.shared && st'.pollers == st.pollers + [Poller(key, parse(key).value, phase)]
  {
  }

  /** A request is accepted exactly if it is complete and its session exists, is pending and has not expired. */
  lemma AuthorisationIsAccepted(parse: string -> Option<string>, st: State, key: string, f: Fields, now: Time)
    requires WellIndexed(st.shared) && Enabled(parse, st, AuthBegin(key, f, now))
    ensures var st', rows := Step(parse, st, AuthBegin(key, f, now)), st.shared.rows;
            var complete := f.ciphertext != "" && f.nonce != "" && f.androidPub != "";
            var pending := parse(key).Some? && parse(key).value in rows && !rows[parse(key).value].authorized;
            && st'.shared == st.shared && st'.pollers == st.pollers
            && st'.authorisers == st.authorisers
               + if complete && pending && now <= rows[parse(key).value].expiresAt
                 then [Authoriser(key, parse(key).value, f, Checked)] else []
  {
  }

  /** A poll that has failed, after expiry in particular, or timed out is never answered afterwards. */
  lemma {:induction false} FailedPollStaysFailed(parse: string -> Option<string>, st: State, ls: seq<Label>, p: nat)
    requires WellIndexed(st.shared) && IsRun(parse, st, ls)
    requires p < |st.pollers| && st.pollers[p].phase in {PollFailed, PollPhase.TimedOut}
    ensures p < |Exec(parse, st, ls).pollers| && Exec(parse, st, ls).pollers[p] == st.pollers[p]
  {
    if ls != [] {
      FailedPollStaysFailed(parse, st, ls[..|ls| - 1], p);
    }
  }

  /** A timeout, or a failed read after waking, ends the poll without credentials. */
  lemma WaitCanEndWithout(parse: string -> Option<string>, st: State, l: Label)
    requires WellIndexed(st.shared) && Enabled(parse, st, l) && (l.PollTimeout? || (l.PollWake? && !l.readOk))
    ensures var st' := Step(parse, st, l);
            && st'.shared == st.shared && st'.authorisers == st.authorisers
            && st'.pollers[l.p].phase == if l.PollTimeout? then PollPhase.TimedOut else PollFailed
  {
  }

  /** A request that fails before its update stores and closes nothing; forgetting drops the channel of the id alone. */
  lemma FailingAndForgetting(parse: string -> Option<string>, st: State, l: Label, key: string)
    requires WellIndexed(st.shared) && Enabled(parse, st, l) && (l.AuthFail? || l.Forget?)
    ensures var st' := Step(parse, st, l);
            && st'.shared.rows == st.shared.rows && st'.shared.channels == st.shared.channels && st'.pollers == st.pollers
            && (key in st'.shared.notify <==> key in st.shared.notify && !(l.Forget? && key == l.id))
            && (key in st'.shared.notify ==> st'.shared.notify[key] == st.shared.notify[key])
            && (l.AuthFail? ==> st'.authorisers[l.a].phase == Failed)
  {
  }

  /** A poller waits on the channel under its key, which it makes only if there is none. */
  lemma PollTakesChannelOfKey(parse: string -> Option<string>, st: State, p: nat)
    requires WellIndexed(st.shared) && Enabled(parse, st, PollTake(p))
    ensures var st', key := Step(parse, st, PollTake(p)), st.pollers[p].key;
            && st'.shared.rows == st.shared.rows && key in st'.shared.notify
            && st'.pollers[p].phase == Waiting(st'.shared.notify[key])
            && if key in st.shared.notify then st'.shared == st.shared
               else st'.shared.notify[key] == |st.shared.channels| && st'.shared.channels == st.shared.channels + [Channel(key, 0)]
  {
  }

  lemma NotifyCloses(parse: string -> Option<string>, st: State, a: nat)
    requires WellIndexed(st.shared) && Enabled(parse, st, AuthNotify(a)) && st.authorisers[a].key in st.shared.notify
    ensures var st', key := Step(parse, st, AuthNotify(a)), st.authorisers[a].key;
            var ch := st.shared.notify[key];
            && st'.shared.channels[ch].closes == st.shared.channels[ch].closes + 1 && key !in st'.shared.notify
            && st'.shared.rows == st.shared.rows && st'.pollers == st.pollers && |st'.shared.channels| == |st.shared.channels|
  {
  }

  /** Every poller on the channel that an authoriser closes can wake up, and answers with the stored fields. */
  lemma NotificationWakesPollers(parse: string -> Option<string>, ls: seq<Label>, a: nat, p: nat)
    requires IsRun(parse, START, ls) && Enabled(parse, Exec(parse, START, ls), AuthNotify(a))
    requires var st := Exec(parse, START, ls);
             && WaitsOn(st, p) && st.authorisers[a].key in st.shared.notify
             && st.pollers[p].phase.channel == st.shared.notify[st.authorisers[a].key]
    ensures var st := Exec(parse, START, ls);
            var st', id := Step(parse, st, AuthNotify(a)), st.authorisers[a].id;
            && IsAuthorized(st.shared, id) && st.pollers[p].id == id && Enabled(parse, st', PollWake(p, true))
            && Step(parse, st', PollWake(p, true)).pollers[p].phase == Answered(st.shared.rows[id].fields)
  {
    RunKeeps(parse, ls);
    var st := Exec(parse, START, ls);
    NotifyCloses(parse, st, a);
    KeysMeet(parse, st, a, p);
    hide Exec, IsRun, Inv;
    WakeAnswers(parse, Step(parse, st, AuthNotify(a)), p);
  }

  /** The poller and the authoriser mean the same session, which is authorised. */
  lemma KeysMeet(parse: string -> Option<string>, st: State, a: nat, p: nat)
    requires Inv(parse, st) && AuthAt(st, a, Updated) && WaitsOn(st, p) && st.authorisers[a].key in st.shared.notify
    requires st.pollers[p].phase.channel == st.shared.notify[st.authorisers[a].key]
    ensures st.pollers[p].id == st.authorisers[a].id && IsAuthorized(st.shared, st.authorisers[a].id)
  {
    assert PollerInv(parse, st.shared, st.pollers[p]);
  }

  lemma WakeAnswers(parse: string -> Option<string>, st: State, p: nat)
    requires WellIndexed(st.shared) && WaitsOn(st, p) && st.shared.channels[st.pollers[p].phase.channel].closes > 0
    requires st.pollers[p].id in st.shared.rows
    ensures Enabled(parse, st, PollWake(p, true))
    ensures Step(parse, st, PollWake(p, true)).pollers[p].phase == Answered(st.shared.rows[st.pollers[p].id].fields)
  {
  }
}
