/** What linking a web client guarantees, over every interleaving of pollers and authorisers. */
module WebSessionGuarantees {
  import opened Wrappers
  import opened WebSessions

  ghost predicate RowIs(s: Shared, id: string, f: Fields) {
    id in s.rows && s.rows[id].authorized && s.rows[id].fields == f
  }

  ghost predicate IsAuthorized(s: Shared, id: string) {
    id in s.rows && s.rows[id].authorized
  }

  /** A channel in the map is open and sits under the key it was made for, hence under one key. */
  ghost predicate ChannelsInv(s: Shared) {
    && WellIndexed(s)
    && (forall key :: key in s.notify ==> s.channels[s.notify[key]] == Channel(key, 0))
    && (forall n :: 0 <= n < |s.channels| ==> s.channels[n].closes <= 1)
  }

  /** Keys of channels parse to sessions; a closed one belongs to an authorised session. */
  ghost predicate ClosedInv(parse: string -> Option<string>, s: Shared) {
    forall n :: 0 <= n < |s.channels| ==>
      && parse(s.channels[n].key).Some? && parse(s.channels[n].key).value in s.rows
      && (s.channels[n].closes > 0 ==> IsAuthorized(s, parse(s.channels[n].key).value))
  }

  ghost predicate AuthorisersInv(parse: string -> Option<string>, st: State) {
    forall a :: 0 <= a < |st.authorisers| ==>
      var w := st.authorisers[a];
      && parse(w.key) == Some(w.id) && Complete(w.fields) && w.id in st.shared.rows
      && (w.phase.Updated? || w.phase.Done? ==> IsAuthorized(st.shared, w.id))
  }

  ghost predicate PollerInv(parse: string -> Option<string>, s: Shared, p: Poller) {
    && parse(p.key) == Some(p.id) && p.id in s.rows
    && (p.phase.Waiting? ==> p.phase.channel < |s.channels| && s.channels[p.phase.channel].key == p.key)
    && (p.phase.Answered? ==> RowIs(s, p.id, p.phase.fields))
  }

  ghost predicate PollersInv(parse: string -> Option<string>, st: State) {
    forall p :: 0 <= p < |st.pollers| ==> PollerInv(parse, st.shared, st.pollers[p])
  }

  ghost predicate IsAuthoriserOf(st: State, id: string, a: nat) {
    && a < |st.authorisers| && st.authorisers[a].id == id
    && (st.authorisers[a].phase.Updated? || st.authorisers[a].phase.Done?)
    && RowIs(st.shared, id, st.authorisers[a].fields)
  }

  /** An authorised row holds the fields of an authoriser that passed the checks and made its update. */
  ghost predicate RowsInv(st: State) {
    forall id :: IsAuthorized(st.shared, id) ==> exists a :: IsAuthoriserOf(st, id, a)
  }

  ghost predicate Inv(parse: string -> Option<string>, st: State) {
    && ChannelsInv(st.shared) && ClosedInv(parse, st.shared) && AuthorisersInv(parse, st)
    && PollersInv(parse, st) && RowsInv(st)
  }

  /** Rows are never deleted and keep their expiry, and an authorised row never changes. */
  ghost predicate RowsGrow(s: Shared, s': Shared) {
    forall id :: id in s.rows ==>
      id in s'.rows && s'.rows[id].expiresAt == s.rows[id].expiresAt && (s.rows[id].authorized ==> s'.rows[id] == s.rows[id])
  }

  /** Channels keep their keys, and stay closed. */
  ghost predicate ChannelsGrow(s: Shared, s': Shared) {
    && |s.channels| <= |s'.channels|
    && forall n :: 0 <= n < |s.channels| ==>
         s'.channels[n].key == s.channels[n].key && s'.channels[n].closes >= s.channels[n].closes
  }

  lemma StepGrows(parse: string -> Option<string>, st: State, l: Label)
    requires WellIndexed(st.shared) && Enabled(parse, st, l)
    ensures RowsGrow(st.shared, Step(parse, st, l).shared) && ChannelsGrow(st.shared, Step(parse, st, l).shared)
  {
  }

  lemma StepKeepsChannels(parse: string -> Option<string>, st: State, l: Label)
    requires ChannelsInv(st.shared) && Enabled(parse, st, l)
    ensures ChannelsInv(Step(parse, st, l).shared)
  {
  }

  lemma StepKeepsClosed(parse: string -> Option<string>, st: State, l: Label)
    requires Inv(parse, st) && Enabled(parse, st, l)
    ensures ClosedInv(parse, Step(parse, st, l).shared)
  {
    StepGrows(parse, st, l);
  }

  lemma StepKeepsAuthorisers(parse: string -> Option<string>, st: State, l: Label)
    requires Inv(parse, st) && Enabled(parse, st, l)
    ensures AuthorisersInv(parse, Step(parse, st, l))
  {
    StepGrows(parse, st, l);
  }

  lemma StepKeepsPollers(parse: string -> Option<string>, st: State, l: Label)
    requires Inv(parse, st) && Enabled(parse, st, l)
    ensures PollersInv(parse, Step(parse, st, l))
  {
    StepGrows(parse, st, l);
  }

  lemma StepKeepsRows(parse: string -> Option<string>, st: State, l: Label)
    requires Inv(parse, st) && Enabled(parse, st, l)
    ensures RowsInv(Step(parse, st, l))
  {
    var st' := Step(parse, st, l);
    forall id | IsAuthorized(st'.shared, id)
      ensures exists a :: IsAuthoriserOf(st', id, a)
    {
      if IsAuthorized(st.shared, id) {
        var a :| IsAuthoriserOf(st, id, a);
        assert IsAuthoriserOf(st', id, a);
      } else {
        assert IsAuthoriserOf(st', id, l.a);
      }
    }
  }

  lemma {:induction false} RunKeeps(parse: string -> Option<string>, ls: seq<Label>)
    requires IsRun(parse, START, ls)
    ensures Inv(parse, Exec(parse, START, ls))
  {
    if ls != [] {
      var st, l := Exec(parse, START, ls[..|ls| - 1]), ls[|ls| - 1];
      RunKeeps(parse, ls[..|ls| - 1]);
      StepKeepsChannels(parse, st, l);
      StepKeepsClosed(parse, st, l);
      StepKeepsAuthorisers(parse, st, l);
      StepKeepsPollers(parse, st, l);
      StepKeepsRows(parse, st, l);
    }
  }

  // ---- One authorisation per session

  /** However many authorisers race, what the first one stored is there for good. */
  lemma {:induction false} FirstAuthorisationStays(parse: string -> Option<string>, st: State, ls: seq<Label>, id: string)
    requires WellIndexed(st.shared) && IsRun(parse, st, ls) && id in st.shared.rows
    ensures var s, s' := st.shared, Exec(parse, st, ls).shared;
            id in s'.rows && (s.rows[id].authorized ==> s'.rows[id] == s.rows[id])
  {
    if ls != [] {
      FirstAuthorisationStays(parse, st, ls[..|ls| - 1], id);
      StepGrows(parse, Exec(parse, st, ls[..|ls| - 1]), ls[|ls| - 1]);
      hide *;
    }
  }

  /** Stored fields are those of one request that passed every check and was not given up, all complete. */
  lemma StoredFieldsAreOneRequest(parse: string -> Option<string>, ls: seq<Label>, id: string)
    requires IsRun(parse, START, ls) && IsAuthorized(Exec(parse, START, ls).shared, id)
    ensures var st := Exec(parse, START, ls);
            Complete(st.shared.rows[id].fields) && exists a: nat :: IsAuthoriserOf(st, id, a)
  {
    RunKeeps(parse, ls);
  }

  /** The i-th step of the run is the update of an authoriser of that session. */
  ghost predicate IsUpdate(st: State, ls: seq<Label>, id: string, i: nat) {
    i < |ls| && ls[i].AuthUpdate? && ls[i].a < |st.authorisers| && st.authorisers[ls[i].a].id == id
  }

  ghost predicate IsFirstUpdate(st: State, ls: seq<Label>, id: string, i: nat) {
    IsUpdate(st, ls, id, i) && forall j: nat :: j < i ==> !IsUpdate(st, ls, id, j)
  }

  /** Every update so far was made by an authoriser in the list. */
  ghost predicate UpdatersListed(st: State, ls: seq<Label>) {
    forall i :: 0 <= i < |ls| && ls[i].AuthUpdate? ==> ls[i].a < |st.authorisers|
  }

  /** What the history says of a row: the first update stored it, if there was one. */
  ghost predicate StoredByFirst(st: State, ls: seq<Label>, id: string) {
    && (IsAuthorized(st.shared, id) <==> exists i: nat :: IsUpdate(st, ls, id, i))
    && (forall i: nat :: IsFirstUpdate(st, ls, id, i) ==> RowIs(st.shared, id, st.authorisers[ls[i].a].fields))
  }

  lemma AuthorisersGrow(parse: string -> Option<string>, st: State, l: Label)
    requires WellIndexed(st.shared) && Enabled(parse, st, l)
    ensures var st' := Step(parse, st, l);
            && |st.authorisers| <= |st'.authorisers|
            && forall a :: 0 <= a < |st.authorisers| ==>
                 st'.authorisers[a].id == st.authorisers[a].id && st'.authorisers[a].fields == st.authorisers[a].fields
  {
  }

  lemma SameUpdates(parse: string -> Option<string>, st: State, ls: seq<Label>, l: Label, id: string, i: nat)
    requires WellIndexed(st.shared) && Enabled(parse, st, l) && UpdatersListed(st, ls) && i < |ls|
    ensures IsUpdate(Step(parse, st, l), ls + [l], id, i) <==> IsUpdate(st, ls, id, i)
  {
    AuthorisersGrow(parse, st, l);
    hide Step, Enabled;
  }

  lemma StepRows(parse: string -> Option<string>, st: State, l: Label, id: string)
    requires WellIndexed(st.shared) && Enabled(parse, st, l)
    requires l.AuthUpdate? ==> st.authorisers[l.a].id in st.shared.rows
    ensures var st' := Step(parse, st, l);
            if IsAuthorized(st.shared, id) then st'.shared.rows[id] == st.shared.rows[id] && IsAuthorized(st'.shared, id)
            else if l.AuthUpdate? && st.authorisers[l.a].id == id then RowIs(st'.shared, id, st.authorisers[l.a].fields)
            else !IsAuthorized(st'.shared, id)
  {
  }

  lemma FirstStays(parse: string -> Option<string>, st: State, ls: seq<Label>, l: Label, id: string)
    requires WellIndexed(st.shared) && Enabled(parse, st, l) && UpdatersListed(st, ls) && StoredByFirst(st, ls, id)
    requires l.AuthUpdate? ==> st.authorisers[l.a].id in st.shared.rows
    ensures UpdatersListed(Step(parse, st, l), ls + [l]) && StoredByFirst(Step(parse, st, l), ls + [l], id)
  {
    var st', ls' := Step(parse, st, l), ls + [l];
    forall i: nat | i < |ls| ensures IsUpdate(st', ls', id, i) <==> IsUpdate(st, ls, id, i) {
      SameUpdates(parse, st, ls, l, id, i);
    }
    StepRows(parse, st, l, id);
    AuthorisersGrow(parse, st, l);
    assert l.AuthUpdate? ==> l.a < |st.authorisers|;
    assert IsUpdate(st', ls', id, |ls|) <==> l.AuthUpdate? && st.authorisers[l.a].id == id;
    hide Step, Enabled, IsAuthorized;
    forall i: nat | i < |ls| && IsFirstUpdate(st', ls', id, i) ensures IsFirstUpdate(st, ls, id, i) {
    }
    hide IsUpdate;
    if i: nat :| IsUpdate(st, ls, id, i) {
      assert i < |ls|;
      assert IsUpdate(st', ls', id, i);
    }
  }

  /** In every run the stored fields are those of the first update made for the session. */
  lemma {:induction false} FirstUpdateIsStored(parse: string -> Option<string>, ls: seq<Label>, id: string)
    requires IsRun(parse, START, ls)
    ensures var st := Exec(parse, START, ls); UpdatersListed(st, ls) && StoredByFirst(st, ls, id)
  {
    if ls != [] {
      var front, l := ls[..|ls| - 1], ls[|ls| - 1];
      var st := Exec(parse, START, front);
      FirstUpdateIsStored(parse, front, id);
      RunKeeps(parse, front);
      UpdaterHasRow(parse, st, l);
      assert ls == front + [l];
      hide Inv, Step, Enabled, UpdatersListed, StoredByFirst;
      FirstStays(parse, st, front, l, id);
    }
  }

  lemma UpdaterHasRow(parse: string -> Option<string>, st: State, l: Label)
    requires AuthorisersInv(parse, st) && Enabled(parse, st, l)
    ensures l.AuthUpdate? ==> l.a < |st.authorisers| && st.authorisers[l.a].id in st.shared.rows
  {
  }

  /** An update stores its request exactly if it is the first for its session, and otherwise changes nothing. */
  lemma UpdateStoresIffFirst(parse: string -> Option<string>, ls: seq<Label>, a: nat)
    requires IsRun(parse, START, ls) && Enabled(parse, Exec(parse, START, ls), AuthUpdate(a))
    ensures var st := Exec(parse, START, ls);
            var s, s', id := st.shared, Step(parse, st, AuthUpdate(a)).shared, st.authorisers[a].id;
            if exists i: nat :: IsUpdate(st, ls, id, i) then s' == s
            else !IsAuthorized(s, id) && RowIs(s', id, st.authorisers[a].fields)
  {
    var st := Exec(parse, START, ls);
    RunKeeps(parse, ls);
    FirstUpdateIsStored(parse, ls, st.authorisers[a].id);
    StepRows(parse, st, AuthUpdate(a), st.authorisers[a].id);
    hide Exec, IsRun, IsUpdate, IsFirstUpdate;
  }

  /** Every answered poller of a session got the stored fields, so all of them got the same. */
  lemma AnswersAgree(parse: string -> Option<string>, ls: seq<Label>, p: nat)
    requires IsRun(parse, START, ls)
    requires var st := Exec(parse, START, ls); p < |st.pollers| && st.pollers[p].phase.Answered?
    ensures var st := Exec(parse, START, ls);
            RowIs(st.shared, st.pollers[p].id, st.pollers[p].phase.fields) && Complete(st.pollers[p].phase.fields)
  {
    RunKeeps(parse, ls);
    StoredFieldsAreOneRequest(parse, ls, Exec(parse, START, ls).pollers[p].id);
  }

  /** No channel is closed twice, and a closed one means its session is authorised. */
  lemma ClosedMeansAuthorised(parse: string -> Option<string>, ls: seq<Label>, n: nat)
    requires IsRun(parse, START, ls) && n < |Exec(parse, START, ls).shared.channels|
    ensures var s := Exec(parse, START, ls).shared; var c := s.channels[n];
            c.closes <= 1 && parse(c.key).Some? && (c.closes == 1 ==> IsAuthorized(s, parse(c.key).value))
  {
    RunKeeps(parse, ls);
  }

  // ---- Wake-ups

  /** A poller on a closed channel can wake up, now and later, and then answers with the stored fields. */
  lemma ClosedChannelWakes(parse: string -> Option<string>, before: seq<Label>, after: seq<Label>, p: nat)
    requires IsRun(parse, START, before)
    requires var st := Exec(parse, START, before);
             WaitsOn(st, p) && st.shared.channels[st.pollers[p].phase.channel].closes > 0 && IsRun(parse, st, after)
    requires var st := Exec(parse, START, before);
             var st' := Exec(parse, st, after); p < |st'.pollers| && st'.pollers[p] == st.pollers[p]
    ensures var st := Exec(parse, START, before); var st' := Exec(parse, st, after); var id := st.pollers[p].id;
            && IsAuthorized(st.shared, id) && Enabled(parse, st', PollWake(p, true))
            && Step(parse, st', PollWake(p, true)).pollers[p].phase == Answered(st.shared.rows[id].fields)
  {
    RunKeeps(parse, before);
    var st := Exec(parse, START, before);
    assert PollerInv(parse, st.shared, st.pollers[p]);
    FirstAuthorisationStays(parse, st, after, st.pollers[p].id);
    ChannelsGrowOverRun(parse, st, after);
  }

  lemma {:induction false} ChannelsGrowOverRun(parse: string -> Option<string>, st: State, ls: seq<Label>)
    requires WellIndexed(st.shared) && IsRun(parse, st, ls)
    ensures ChannelsGrow(st.shared, Exec(parse, st, ls).shared)
  {
    if ls != [] {
      ChannelsGrowOverRun(parse, st, ls[..|ls| - 1]);
      StepGrows(parse, Exec(parse, st, ls[..|ls| - 1]), ls[|ls| - 1]);
      hide Step, Enabled;
    }
  }

  /** An authoriser of this key between its checks and its notification. */
  ghost predicate IsActive(st: State, key: string, a: nat) {
    a < |st.authorisers| && st.authorisers[a].key == key && (st.authorisers[a].phase.Checked? || st.authorisers[a].phase.Updated?)
  }

  /** A request for this session would pass its checks now. */
  ghost predicate IsOpen(s: Shared, id: string, clock: Time) {
    id in s.rows && !s.rows[id].authorized && clock <= s.rows[id].expiresAt
  }

  /** The channel is still under its key, and somebody notifies that key or may still come to do so. */
  ghost predicate CanBeClosed(parse: string -> Option<string>, st: State, ch: nat)
    requires ch < |st.shared.channels|
  {
    var key := st.shared.channels[ch].key;
    && UnderKey(st.shared, ch)
    && ((exists a :: IsActive(st, key, a)) || (parse(key).Some? && IsOpen(st.shared, parse(key).value, st.clock)))
  }

  ghost predicate UnderKey(s: Shared, ch: nat)
    requires ch < |s.channels|
  {
    s.channels[ch].key in s.notify && s.notify[s.channels[ch].key] == ch
  }

  lemma OrphanStaysOpen(parse: string -> Option<string>, st: State, l: Label, ch: nat)
    requires ChannelsInv(st.shared) && Enabled(parse, st, l) && ch < |st.shared.channels|
    requires st.shared.channels[ch].closes == 0 && !UnderKey(st.shared, ch)
    ensures var s' := Step(parse, st, l).shared;
            ch < |s'.channels| && s'.channels[ch] == st.shared.channels[ch] && !UnderKey(s', ch)
  {
  }

  /** Authorised or expired, and nobody left to notify: new requests are refused. */
  ghost predicate Spent(parse: string -> Option<string>, st: State, key: string) {
    && parse(key).Some? && parse(key).value in st.shared.rows && !IsOpen(st.shared, parse(key).value, st.clock)
    && forall a :: !IsActive(st, key, a)
  }

  lemma ClosedForGood(parse: string -> Option<string>, st: State, l: Label, id: string)
    requires WellIndexed(st.shared) && Enabled(parse, st, l) && id in st.shared.rows && !IsOpen(st.shared, id, st.clock)
    ensures !IsOpen(Step(parse, st, l).shared, id, Step(parse, st, l).clock) && id in Step(parse, st, l).shared.rows
  {
    StepGrows(parse, st, l);
    assert Step(parse, st, l).clock >= st.clock;
    hide Step;
  }

  lemma SpentStays(parse: string -> Option<string>, st: State, l: Label, ch: nat)
    requires ChannelsInv(st.shared) && Enabled(parse, st, l) && ch < |st.shared.channels|
    requires st.shared.channels[ch].closes == 0 && Spent(parse, st, st.shared.channels[ch].key)
    ensures var st' := Step(parse, st, l);
            && Spent(parse, st', st.shared.channels[ch].key)
            && ch < |st'.shared.channels| && st'.shared.channels[ch] == st.shared.channels[ch]
  {
    var st', key := Step(parse, st, l), st.shared.channels[ch].key;
    ClosedForGood(parse, st, l, parse(key).value);
    assert l.AuthNotify? ==> IsActive(st, st.authorisers[l.a].key, l.a);
    forall a ensures !IsActive(st', key, a) {
      assert !IsActive(st, key, a);
    }
  }

  lemma StepLeavesDead(parse: string -> Option<string>, st: State, l: Label, ch: nat)
    requires Inv(parse, st) && Enabled(parse, st, l) && ch < |st.shared.channels|
    requires st.shared.channels[ch].closes == 0 && !CanBeClosed(parse, st, ch)
    ensures var st' := Step(parse, st, l);
            ch < |st'.shared.channels| && st'.shared.channels[ch].closes == 0 && !CanBeClosed(parse, st', ch)
  {
    if UnderKey(st.shared, ch) {
      SpentStays(parse, st, l, ch);
    } else {
      OrphanStaysOpen(parse, st, l, ch);
    }
    hide Step, Enabled, IsActive, IsOpen;
  }

  /** Once nobody can close it, an open channel stays open. */
  lemma {:induction false} DeadChannelStaysOpen(parse: string -> Option<string>, before: seq<Label>, after: seq<Label>, ch: nat)
    requires IsRun(parse, START, before)
    requires var st := Exec(parse, START, before);
             && ch < |st.shared.channels| && st.shared.channels[ch].closes == 0 && !CanBeClosed(parse, st, ch)
             && IsRun(parse, st, after)
    ensures var st' := Exec(parse, Exec(parse, START, before), after);
            ch < |st'.shared.channels| && st'.shared.channels[ch].closes == 0 && !CanBeClosed(parse, st', ch)
  {
    if after != [] {
      DeadChannelStaysOpen(parse, before, after[..|after| - 1], ch);
      RunsCompose(parse, before, after[..|after| - 1]);
      RunKeeps(parse, before + after[..|after| - 1]);
      StepLeavesDead(parse, Exec(parse, Exec(parse, START, before), after[..|after| - 1]), after[|after| - 1], ch);
    }
  }

  lemma {:induction false} RunsCompose(parse: string -> Option<string>, a: seq<Label>, b: seq<Label>)
    requires IsRun(parse, START, a) && IsRun(parse, Exec(parse, START, a), b)
    ensures IsRun(parse, START, a + b) && Exec(parse, START, a + b) == Exec(parse, Exec(parse, START, a), b)
  {
    if b == [] {
      assert a + b == a;
    } else {
      RunsCompose(parse, a, b[..|b| - 1]);
      assert (a + b)[..|a + b| - 1] == a + b[..|b| - 1];
    }
  }

  lemma RunOne(parse: string -> Option<string>, st: State, ls: seq<Label>, l: Label)
    requires WellIndexed(st.shared) && IsRun(parse, st, ls) && Enabled(parse, Exec(parse, st, ls), l)
    ensures IsRun(parse, st, ls + [l]) && Exec(parse, st, ls + [l]) == Step(parse, Exec(parse, st, ls), l)
  {
    assert (ls + [l])[..|ls|] == ls;
  }

  /** An active authoriser can go on to close the channel under its key. */
  lemma ActiveCloses(parse: string -> Option<string>, st: State, ls: seq<Label>, key: string, a: nat) returns (after: seq<Label>)
    requires WellIndexed(st.shared) && IsRun(parse, st, ls) && IsActive(Exec(parse, st, ls), key, a)
    requires key in Exec(parse, st, ls).shared.notify
    ensures IsRun(parse, st, after)
    ensures var s, s' := Exec(parse, st, ls).shared, Exec(parse, st, after).shared;
            |s'.channels| == |s.channels| && s'.channels[s.notify[key]].closes > 0
  {
    after := ls;
    if Exec(parse, st, after).authorisers[a].phase.Checked? {
      RunOne(parse, st, after, AuthUpdate(a));
      after := after + [AuthUpdate(a)];
    }
    RunOne(parse, st, after, AuthNotify(a));
    after := after + [AuthNotify(a)];
  }

  /** A pending session that has not expired can still be authorised by a new request. */
  lemma LiveChannelCanClose(parse: string -> Option<string>, st: State, ch: nat) returns (after: seq<Label>)
    requires Inv(parse, st) && ch < |st.shared.channels| && CanBeClosed(parse, st, ch)
    ensures IsRun(parse, st, after) && ch < |Exec(parse, st, after).shared.channels|
    ensures Exec(parse, st, after).shared.channels[ch].closes > 0
  {
    var key := st.shared.channels[ch].key;
    var id := parse(key).value;
    if a :| IsActive(st, key, a) {
      after := ActiveCloses(parse, st, [], key, a);
    } else {
      var begin := AuthBegin(key, Fields("c", "n", "k", "u", "d"), st.clock);
      RunOne(parse, st, [], begin);
      assert [] + [begin] == [begin];
      after := ActiveCloses(parse, st, [begin], key, |st.authorisers|);
    }
  }

  ghost predicate ClosesIn(parse: string -> Option<string>, st: State, after: seq<Label>, ch: nat)
    requires WellIndexed(st.shared)
  {
    && IsRun(parse, st, after)
    && var s := Exec(parse, st, after).shared; ch < |s.channels| && s.channels[ch].closes > 0
  }

  /**
   Some continuation, on a clock that never goes back, closes an open channel exactly if the channel is under
   its key and an authoriser for that key has not notified yet, or the session is pending and has not expired.
   */
  lemma OpenChannelFate(parse: string -> Option<string>, before: seq<Label>, ch: nat)
    requires IsRun(parse, START, before)
    requires var s := Exec(parse, START, before).shared; ch < |s.channels| && s.channels[ch].closes == 0
    ensures var st := Exec(parse, START, before);
            CanBeClosed(parse, st, ch) <==> exists after :: ClosesIn(parse, st, after, ch)
  {
    RunKeeps(parse, before);
    var st := Exec(parse, START, before);
    if CanBeClosed(parse, st, ch) {
      var after := LiveChannelCanClose(parse, st, ch);
      assert ClosesIn(parse, st, after, ch);
    } else {
      forall after ensures !ClosesIn(parse, st, after, ch) {
        if IsRun(parse, st, after) {
          DeadChannelStaysOpen(parse, before, after, ch);
        }
      }
    }
  }

  /** A refused late request: the channel of an expired session is still in the map, and stays open. */
  lemma ExpiredStaysOpen(parse: string -> Option<string>, f: Fields)
    requires parse("s") == Some("s")
    ensures var ls := [Create("s", 0)] + [AuthBegin("s", f, SESSION_TTL + 1)];
            && IsRun(parse, START, ls)
            && var st := Exec(parse, START, ls);
               |st.shared.channels| == 1 && UnderKey(st.shared, 0) && st.authorisers == [] && !CanBeClosed(parse, st, 0)
  {
    CreateOpens(parse);
    RunOne(parse, START, [], Create("s", 0));
    assert [] + [Create("s", 0)] == [Create("s", 0)];
    hide IsRun, Exec;
    RunOne(parse, START, [Create("s", 0)], AuthBegin("s", f, SESSION_TTL + 1));
  }

  // ---- Two races the code allows

  function Linked(row: Row, notify: map<string, nat>, channels: seq<Channel>, a: Authoriser, p: Poller): State {
    State(Shared(map["s" := row], notify, channels), [a], [p], 0)
  }

  function Opened(row: Row, authorisers: seq<Authoriser>): State {
    State(Shared(map["s" := row], map["s" := 0], [Channel("s", 0)]), authorisers, [], 0)
  }

  const PENDING := Row(false, NO_FIELDS, SESSION_TTL)

  lemma CreateOpens(parse: string -> Option<string>)
    requires parse("s") == Some("s")
    ensures Enabled(parse, START, Create("s", 0)) && Step(parse, START, Create("s", 0)) == Opened(PENDING, [])
  {
  }

  lemma BeginAdds(parse: string -> Option<string>, f: Fields, authorisers: seq<Authoriser>)
    requires parse("s") == Some("s") && Complete(f)
    ensures Step(parse, Opened(PENDING, authorisers), AuthBegin("s", f, 0))
         == Opened(PENDING, authorisers + [Authoriser("s", "s", f, Checked)])
  {
  }

  /** A session is created, and an authoriser reads "pending". */
  lemma OneAuthoriser(parse: string -> Option<string>, f: Fields)
    requires parse("s") == Some("s") && Complete(f)
    ensures var ls := [Create("s", 0)] + [AuthBegin("s", f, 0)];
            IsRun(parse, START, ls) && Exec(parse, START, ls) == Opened(PENDING, [Authoriser("s", "s", f, Checked)])
  {
    CreateOpens(parse);
    BeginAdds(parse, f, []);
    RunOne(parse, START, [], Create("s", 0));
    assert [] + [Create("s", 0)] == [Create("s", 0)];
    assert Enabled(parse, Opened(PENDING, []), AuthBegin("s", f, 0));
    hide Step, Enabled, Opened;
    RunOne(parse, START, [Create("s", 0)], AuthBegin("s", f, 0));
  }

  /** So does a poller. */
  lemma BothReadPending(parse: string -> Option<string>, f: Fields)
    requires parse("s") == Some("s") && Complete(f)
    ensures var ls := [Create("s", 0)] + [AuthBegin("s", f, 0)] + [PollBegin("s", 0)];
            && IsRun(parse, START, ls)
            && Exec(parse, START, ls) == Linked(PENDING, map["s" := 0], [Channel("s", 0)],
                                                Authoriser("s", "s", f, Checked), Poller("s", "s", Polled))
  {
    OneAuthoriser(parse, f);
    var st := Opened(PENDING, [Authoriser("s", "s", f, Checked)]);
    assert Enabled(parse, st, PollBegin("s", 0));
    assert Step(parse, st, PollBegin("s", 0)) == Linked(PENDING, map["s" := 0], [Channel("s", 0)],
                                                        Authoriser("s", "s", f, Checked), Poller("s", "s", Polled));
    hide Step, Enabled, Opened, IsRun, Exec;
    RunOne(parse, START, [Create("s", 0)] + [AuthBegin("s", f, 0)], PollBegin("s", 0));
  }

  /** The authoriser stores and notifies, and only then does the poller take a channel. */
  lemma NotifyThenTake(parse: string -> Option<string>, f: Fields)
    requires parse("s") == Some("s")
    ensures var st := Linked(PENDING, map["s" := 0], [Channel("s", 0)],
                             Authoriser("s", "s", f, Checked), Poller("s", "s", Polled));
            var st1 := Linked(Row(true, f, SESSION_TTL), map["s" := 0], [Channel("s", 0)],
                              Authoriser("s", "s", f, Updated), Poller("s", "s", Polled));
            var st2 := Linked(Row(true, f, SESSION_TTL), map[], [Channel("s", 1)],
                              Authoriser("s", "s", f, Done), Poller("s", "s", Polled));
            var st3 := Linked(Row(true, f, SESSION_TTL), map["s" := 1], [Channel("s", 1), Channel("s", 0)],
                              Authoriser("s", "s", f, Done), Poller("s", "s", Waiting(1)));
            && Enabled(parse, st, AuthUpdate(0)) && Step(parse, st, AuthUpdate(0)) == st1
            && Enabled(parse, st1, AuthNotify(0)) && Step(parse, st1, AuthNotify(0)) == st2
            && Enabled(parse, st2, PollTake(0)) && Step(parse, st2, PollTake(0)) == st3
            && !CanBeClosed(parse, st3, 1)
  {
    assert map["s" := 0] - {"s"} == map[];
  }

  /** Nobody will close that channel, although the session is authorised. */
  lemma WakeupCanBeMissed(parse: string -> Option<string>, f: Fields)
    requires parse("s") == Some("s") && Complete(f)
    ensures var ls := [Create("s", 0)] + [AuthBegin("s", f, 0)] + [PollBegin("s", 0)]
                      + [AuthUpdate(0)] + [AuthNotify(0)] + [PollTake(0)];
            && IsRun(parse, START, ls)
            && var st := Exec(parse, START, ls);
               && RowIs(st.shared, "s", f) && WaitsOn(st, 0) && st.pollers[0].phase == Waiting(1)
               && st.shared.channels[1].closes == 0 && !CanBeClosed(parse, st, 1)
  {
    var ls := [Create("s", 0)] + [AuthBegin("s", f, 0)] + [PollBegin("s", 0)];
    BothReadPending(parse, f);
    NotifyThenTake(parse, f);
    hide Step, Enabled, CanBeClosed, IsRun, Exec;
    RunOne(parse, START, ls, AuthUpdate(0));
    RunOne(parse, START, ls + [AuthUpdate(0)], AuthNotify(0));
    RunOne(parse, START, ls + [AuthUpdate(0)] + [AuthNotify(0)], PollTake(0));
  }

  lemma SecondUpdateIsLost(parse: string -> Option<string>, f: Fields, g: Fields)
    ensures var (a, b) := (Authoriser("s", "s", f, Checked), Authoriser("s", "s", g, Checked));
            var st, st1 := Opened(PENDING, [a, b]), Opened(Row(true, f, SESSION_TTL), [a.(phase := Updated), b]);
            && Enabled(parse, st, AuthUpdate(0)) && Step(parse, st, AuthUpdate(0)) == st1
            && Enabled(parse, st1, AuthUpdate(1))
            && Step(parse, st1, AuthUpdate(1)) == Opened(Row(true, f, SESSION_TTL), [a.(phase := Updated), b.(phase := Updated)])
  {
  }

  /** Both racing authorisers finish without an error, but only the first one's fields are stored. */
  lemma LoserIsNotTold(parse: string -> Option<string>, f: Fields, g: Fields)
    requires parse("s") == Some("s") && Complete(f) && Complete(g)
    ensures var ls := [Create("s", 0)] + [AuthBegin("s", f, 0)] + [AuthBegin("s", g, 0)] + [AuthUpdate(0)] + [AuthUpdate(1)];
            && IsRun(parse, START, ls)
            && Exec(parse, START, ls) ==
               Opened(Row(true, f, SESSION_TTL), [Authoriser("s", "s", f, Updated), Authoriser("s", "s", g, Updated)])
  {
    var a, b := Authoriser("s", "s", f, Checked), Authoriser("s", "s", g, Checked);
    var ls := [Create("s", 0)] + [AuthBegin("s", f, 0)];
    OneAuthoriser(parse, f);
    BeginAdds(parse, g, [a]);
    SecondUpdateIsLost(parse, f, g);
    assert [a] + [b] == [a, b];
    assert Enabled(parse, Opened(PENDING, [a]), AuthBegin("s", g, 0));
    hide Step, Enabled, Opened, IsRun, Exec;
    RunOne(parse, START, ls, AuthBegin("s", g, 0));
    RunOne(parse, START, ls + [AuthBegin("s", g, 0)], AuthUpdate(0));
    RunOne(parse, START, ls + [AuthBegin("s", g, 0)] + [AuthUpdate(0)], AuthUpdate(1));
  }
}
