/** The guarantees of the delivery protocol, for every run from the start. */
module DeliveryGuarantees {
  import opened Wrappers
  import opened Delivery
  import opened DeliveryInvariant
  import opened DeliveryTheorems

  /** No message is lost or duplicated by any interleaving. */
  lemma NoMessageIsLost(dev: string, ls: seq<Label>)
    requires IsRun(Init(dev), ls)
    ensures var y := Exec(Init(dev), ls);
            y.enqueued == y.ready + AllUnacked(y.sessions) + Messages(y.removed)
  {
    Reachable(dev, ls);
  }

  /** Once every session is closed, whatever was not removed is back in the queue. */
  lemma DisconnectReturnsEverything(dev: string, ls: seq<Label>)
    requires IsRun(Init(dev), ls)
    requires forall sid :: 0 <= sid < |Exec(Init(dev), ls).sessions| ==> Exec(Init(dev), ls).sessions[sid].stage == Closed
    ensures var y := Exec(Init(dev), ls);
            y.enqueued == y.ready + Messages(y.removed)
  {
    Reachable(dev, ls);
    var y := Exec(Init(dev), ls);
    hide Exec, IsRun, RemovalsInv, ReceiptsInv, CurrentInv;
    ClosedHoldNothing(y.sessions, dev);
  }

  lemma {:induction false} ClosedHoldNothing(ss: seq<Session>, dev: string)
    requires forall sid :: 0 <= sid < |ss| ==> ss[sid].stage == Closed && ss[sid].unacked == map[]
    ensures AllUnacked(ss) == multiset{}
  {
    if ss != [] {
      ClosedHoldNothing(ss[..|ss| - 1], dev);
      EmptyValues();
    }
  }

  /** A message leaves the queue for good only for one of the four reasons the protocol knows. */
  lemma RemovalsAreJustified(dev: string, ls: seq<Label>, r: Removal)
    requires IsRun(Init(dev), ls) && r in Exec(Init(dev), ls).removed
    ensures Justified(Exec(Init(dev), ls), r)
  {
    Reachable(dev, ls);
    hide Exec, IsRun, Justified;
  }

  /** No tag is ever settled twice, and the broker never refuses a settlement. */
  lemma NoTagIsSettledTwice(dev: string, ls: seq<Label>, sid: nat)
    requires IsRun(Init(dev), ls) && sid < |Exec(Init(dev), ls).sessions|
    ensures var s := Exec(Init(dev), ls).sessions[sid];
            && !s.faulted
            && (forall i, j :: 0 <= i < j < |s.settled| ==> s.settled[i] != s.settled[j])
            && (forall t :: t in s.settled ==> t !in s.unacked)
  {
    Reachable(dev, ls);
    hide Exec, IsRun, Conserved, RemovalsInv, ReceiptsInv, CurrentInv;
    assert SessionInv(Exec(Init(dev), ls).sessions[sid], dev) by { ExecKeepsDevice(Init(dev), ls); }
    hide SessionsInv, Placed;
  }

  lemma {:induction false} ExecKeepsDevice(y: System, ls: seq<Label>)
    requires IsRun(y, ls)
    ensures Exec(y, ls).deviceId == y.deviceId
    decreases |ls|
  {
    if ls != [] {
      ExecKeepsDevice(Step(y, ls[0]), ls[1..]);
    }
  }

  // ---- Where the unsettled tags are

  ghost predicate InBuffer(s: Session, t: Tag) {
    exists i :: 0 <= i < |s.buffer| && s.buffer[i].tag == t
  }

  predicate InConsumer(s: Session, t: Tag) {
    ConsumerTag(s.consumer) == Some(t)
  }

  /** In pendingAcks, under its message id and with its own timer still running. */
  ghost predicate AwaitingReceipt(s: Session, t: Tag) {
    exists id :: id in s.pending && s.pending[id] == t && LiveTimer(s.timers, t, id) && IsPayload(s.unacked, t, id)
  }

  ghost predicate InHand(s: Session, t: Tag) {
    exists x :: x in s.hands && x.tag == t
  }

  /** How many of the six possible places hold the tag. */
  ghost function PlaceCount(s: Session, t: Tag): nat {
    One(InBuffer(s, t)) + One(InConsumer(s, t)) + One(AwaitingReceipt(s, t)) + One(InHand(s, t))
    + One(t in s.overwritten) + One(t in s.forgotten)
  }

  /** overwritten and forgotten never overlap: nothing is inserted after the map is cleared. */
  lemma OnePlace(s: Session, dev: string, t: Tag, p: Places)
    requires Placed(s, dev, p) && t in s.unacked && s.overwritten !! s.forgotten
    ensures PlaceCount(s, t) == 1
    ensures forall x, y :: x in s.hands && y in s.hands && x.tag == y.tag ==> x == y
    ensures forall a, b :: a in s.pending && b in s.pending && s.pending[a] == s.pending[b] ==> a == b
    ensures forall x :: x in s.hands ==> s.hands[x] == 1
  {
    BufferPlace(s, t, p);
    MapPlace(s, t, p);
    HandPlace(s, t, p);
    hide InBuffer, AwaitingReceipt, InHand, BufferInv, PendingInv, HandsInv;
  }

  lemma BufferPlace(s: Session, t: Tag, p: Places)
    requires BufferInv(s.buffer, s.unacked, p) && t in p
    ensures InBuffer(s, t) <==> p[t] == Buffered
  {
  }

  lemma MapPlace(s: Session, t: Tag, p: Places)
    requires PendingInv(s.pending, s.timers, s.unacked, s.written, p) && t in p
    ensures AwaitingReceipt(s, t) <==> p[t].Mapped?
    ensures forall a, b :: a in s.pending && b in s.pending && s.pending[a] == s.pending[b] ==> a == b
  {
    if p[t].Mapped? {
      assert p[t].messageId in s.pending;
    }
  }

  lemma HandPlace(s: Session, t: Tag, p: Places)
    requires HandsInv(s.hands, s.unacked, s.written, p) && t in p
    ensures InHand(s, t) <==> p[t].Held?
    ensures forall x, y :: x in s.hands && y in s.hands && x.tag == y.tag ==> x == y
    ensures forall x :: x in s.hands ==> s.hands[x] == 1
  {
    if p[t].Held? {
      assert p[t].settlement in s.hands;
    }
  }

  /** On an open channel every unacked tag is in exactly one of the six places. */
  lemma EveryTagHasOnePlace(dev: string, ls: seq<Label>, sid: nat, t: Tag)
    requires IsRun(Init(dev), ls) && sid < |Exec(Init(dev), ls).sessions|
    requires t in Exec(Init(dev), ls).sessions[sid].unacked
    ensures var s := Exec(Init(dev), ls).sessions[sid];
            && PlaceCount(s, t) == 1
            && (PendingOpen(s) ==> t !in s.forgotten)
  {
    var s := Exec(Init(dev), ls).sessions[sid];
    ReachableSession(dev, ls, sid);
    hide Exec, IsRun, PlaceCount;
    var p :| Placed(s, dev, p);
    hide BufferInv, PendingInv, HandsInv, LostInv, ConsumerInv, WrittenInv;
    OnePlace(s, dev, t, p);
  }

  lemma ReachableSession(dev: string, ls: seq<Label>, sid: nat)
    requires IsRun(Init(dev), ls) && sid < |Exec(Init(dev), ls).sessions|
    ensures SessionInv(Exec(Init(dev), ls).sessions[sid], dev)
  {
    Reachable(dev, ls);
    ExecKeepsDevice(Init(dev), ls);
  }

  // ---- Overwritten entries: the one way a forwarded payload escapes receipt and timeout

  ghost predicate NothingOverwritten(y: System) {
    forall sid :: 0 <= sid < |y.sessions| ==> y.sessions[sid].overwritten == {}
  }

  /** The step stores an entry under a message id that is already in the map. */
  predicate Collides(y: System, l: Label)
    requires Enabled(y, l)
  {
    l.Do? && l.act.ConsumerInserts? && y.sessions[l.sid].consumer.messageId in y.sessions[l.sid].pending
  }

  /** No insertion of the run meets its own message id in the map. */
  ghost predicate NeverCollides(y: System, ls: seq<Label>)
    requires IsRun(y, ls)
    decreases |ls|
  {
    ls == [] || (!Collides(y, ls[0]) && NeverCollides(Step(y, ls[0]), ls[1..]))
  }

  lemma AfterOverwrites(s: Session, dev: string, a: Act)
    requires Can(s, a)
    ensures After(s, dev, a).overwritten ==
            if a.ConsumerInserts? && s.consumer.messageId in s.pending
            then s.overwritten + {s.pending[s.consumer.messageId]} else s.overwritten
  {
    if a.ConsumerSettles? || a.HandSettles? {
      SettlingOverwritesNone(s, if a.HandSettles? then a.settlement.tag else s.consumer.settlement.tag);
    }
    hide Judge, SettleTag, StopTimer;
  }

  lemma SettlingOverwritesNone(s: Session, t: Tag)
    ensures SettleTag(s, t).overwritten == s.overwritten
  {
  }

  lemma CollisionOverwrites(y: System, l: Label)
    requires Enabled(y, l) && NothingOverwritten(y)
    ensures NothingOverwritten(Step(y, l)) <==> !Collides(y, l)
  {
    var y' := Step(y, l);
    hide Can, After, Returned, Removals;
    if l.Do? {
      AfterOverwrites(y.sessions[l.sid], y.deviceId, l.act);
      assert y'.sessions[l.sid] == After(y.sessions[l.sid], y.deviceId, l.act);
    }
  }

  lemma {:induction false} OverwrittenForGood(y: System, ls: seq<Label>, sid: nat)
    requires IsRun(y, ls) && sid < |y.sessions|
    ensures sid < |Exec(y, ls).sessions| && y.sessions[sid].overwritten <= Exec(y, ls).sessions[sid].overwritten
    decreases |ls|
  {
    if ls != [] {
      StepExtends(y, ls[0]);
      OverwrittenForGood(Step(y, ls[0]), ls[1..], sid);
    }
  }

  lemma {:induction false} CollisionsShow(y: System, ls: seq<Label>)
    requires IsRun(y, ls) && NothingOverwritten(y)
    ensures NothingOverwritten(Exec(y, ls)) <==> NeverCollides(y, ls)
    decreases |ls|
  {
    if ls != [] {
      var y' := Step(y, ls[0]);
      CollisionOverwrites(y, ls[0]);
      if Collides(y, ls[0]) {
        var sid :| 0 <= sid < |y'.sessions| && y'.sessions[sid].overwritten != {};
        OverwrittenForGood(y', ls[1..], sid);
      } else {
        CollisionsShow(y', ls[1..]);
      }
    }
  }

  /** An entry is overwritten in a run exactly when an insertion meets its message id in the map. */
  lemma OverwrittenIffIdsCollide(dev: string, ls: seq<Label>)
    requires IsRun(Init(dev), ls)
    ensures NothingOverwritten(Exec(Init(dev), ls)) <==> NeverCollides(Init(dev), ls)
  {
    CollisionsShow(Init(dev), ls);
  }

  /** With nothing overwritten, a forwarded payload waits with its own timer or is in one actor's hand. */
  lemma TrackedUnlessOverwritten(dev: string, ls: seq<Label>, sid: nat, t: Tag)
    requires IsRun(Init(dev), ls) && NeverCollides(Init(dev), ls) && sid < |Exec(Init(dev), ls).sessions|
    requires var s := Exec(Init(dev), ls).sessions[sid];
             PendingOpen(s) && t in s.unacked && t in s.written && !InConsumer(s, t)
    ensures var s := Exec(Init(dev), ls).sessions[sid];
            AwaitingReceipt(s, t) != InHand(s, t)
  {
    var s := Exec(Init(dev), ls).sessions[sid];
    EveryTagHasOnePlace(dev, ls, sid, t);
    OverwrittenIffIdsCollide(dev, ls);
    ReachableSession(dev, ls, sid);
    assert s.overwritten == {};
    hide Exec, IsRun, NeverCollides;
    var p :| Placed(s, dev, p);
    hide BufferInv, PendingInv, HandsInv, LostInv, ConsumerInv, AwaitingReceipt, InHand;
    assert !InBuffer(s, t);
  }

  /** An overwritten tag stays unacked until its channel closes: no receipt and no timer settles it. */
  lemma OverwrittenWaitsForClose(dev: string, ls: seq<Label>, more: seq<Label>, sid: nat, t: Tag)
    requires IsRun(Init(dev), ls) && sid < |Exec(Init(dev), ls).sessions|
    requires t in Exec(Init(dev), ls).sessions[sid].overwritten
    requires IsRun(Exec(Init(dev), ls), more)
    ensures var y := Exec(Exec(Init(dev), ls), more);
            sid < |y.sessions| && (t in y.sessions[sid].unacked <==> y.sessions[sid].stage != Closed)
  {
    var y := Exec(Init(dev), ls);
    var y' := Exec(y, more);
    Reachable(dev, ls);
    RunKeeps(y, more);
    OverwrittenForGood(y, more, sid);
    hide Exec, IsRun, Conserved, RemovalsInv, ReceiptsInv, CurrentInv;
    var s := y'.sessions[sid];
    assert SessionInv(s, y'.deviceId);
    if s.stage != Closed {
      var p :| Placed(s, y'.deviceId, p);
      assert t in p && t in s.unacked;
    }
  }

  // ---- A tracked message can always be redelivered

  /** Running ls takes tag t off session sid's channel and puts its message back into the queue. */
  ghost predicate Requeues(y: System, ls: seq<Label>, sid: nat, t: Tag)
    requires sid < |y.sessions| && t in y.sessions[sid].unacked
  {
    && IsRun(y, ls)
    && Exec(y, ls).ready == y.ready + multiset{y.sessions[sid].unacked[t]}
    && sid < |Exec(y, ls).sessions| && t !in Exec(y, ls).sessions[sid].unacked
  }

  lemma EntryHasTimer(s: Session, dev: string, id: string)
    requires SessionInv(s, dev) && id in s.pending
    ensures PendingOpen(s) && s.pending[id] in s.unacked && LiveTimer(s.timers, s.pending[id], id)
  {
    assert PendingOpen(s);
    var p :| Placed(s, dev, p);
    hide BufferInv, ConsumerInv, HandsInv, LostInv, WrittenInv;
  }

  /** From every reachable state, each entry of pendingAcks is at most three steps from redelivery. */
  lemma TrackedCanBeRequeued(dev: string, ls: seq<Label>, sid: nat, id: string)
    requires IsRun(Init(dev), ls) && sid < |Exec(Init(dev), ls).sessions|
    requires id in Exec(Init(dev), ls).sessions[sid].pending
    ensures var y := Exec(Init(dev), ls);
            var t := y.sessions[sid].pending[id];
            t in y.sessions[sid].unacked && exists more :: |more| <= 3 && Requeues(y, more, sid, t)
  {
    var y := Exec(Init(dev), ls);
    ReachableSession(dev, ls, sid);
    EntryHasTimer(y.sessions[sid], dev, id);
    var t := y.sessions[sid].pending[id];
    var more := TimeoutRun(sid, t, id);
    hide Exec, IsRun, SessionInv, Requeues, TimeoutRun;
    if y.sessions[sid].timers[t].state == Fired {
      RequeueRun(y, sid, id);
    } else {
      FireThenRequeue(y, sid, id);
      more := [Do(sid, TimerFires(t))] + more;
    }
    assert |more| <= 3 && Requeues(y, more, sid, t);
  }

  function TimeoutRun(sid: nat, t: Tag, id: string): (ls: seq<Label>)
    ensures |ls| == 2
  {
    [Do(sid, TimerTakes(t)), Do(sid, HandSettles(Settlement(t, ByTimeout(id))))]
  }

  lemma FireThenRequeue(y: System, sid: nat, id: string)
    requires sid < |y.sessions| && id in y.sessions[sid].pending && y.sessions[sid].stage != Closed
    requires var s := y.sessions[sid];
             var t := s.pending[id];
             t in s.unacked && t in s.timers && s.timers[t] == Timer(id, Armed)
    ensures var t := y.sessions[sid].pending[id];
            Requeues(y, [Do(sid, TimerFires(t))] + TimeoutRun(sid, t, id), sid, t)
  {
    var t := y.sessions[sid].pending[id];
    var first, rest := Do(sid, TimerFires(t)), TimeoutRun(sid, t, id);
    var y1 := Step(y, first);
    assert y1.sessions[sid] == Fire(y.sessions[sid], t);
    assert y1.ready == y.ready;
    RequeueRun(y1, sid, id);
    assert ([first] + rest)[1..] == rest && ([first] + rest)[0] == first;
  }

  lemma RequeueRun(y: System, sid: nat, id: string)
    requires sid < |y.sessions| && id in y.sessions[sid].pending && y.sessions[sid].stage != Closed
    requires var s := y.sessions[sid];
             var t := s.pending[id];
             t in s.unacked && t in s.timers && s.timers[t] == Timer(id, Fired)
    ensures var t := y.sessions[sid].pending[id];
            Requeues(y, TimeoutRun(sid, t, id), sid, t)
  {
    var t := y.sessions[sid].pending[id];
    var x := Settlement(t, ByTimeout(id));
    var first, second := Do(sid, TimerTakes(t)), Do(sid, HandSettles(x));
    var y1 := Step(y, first);
    assert y1.sessions[sid] == TakeByTimer(y.sessions[sid], t) && y1.ready == y.ready;
    HandReturns(y1, sid, x);
    hide Step, Enabled;
    var y2 := Step(y1, second);
    assert [first, second][1..] == [second] && [second][1..] == [];
    assert IsRun(y2, []) && IsRun(y1, [second]);
    assert Exec(y1, [second]) == Exec(y2, []);
  }

  lemma HandReturns(y: System, sid: nat, x: Settlement)
    requires sid < |y.sessions| && x in y.sessions[sid].hands && x.cause.ByTimeout?
    requires y.sessions[sid].stage != Closed && x.tag in y.sessions[sid].unacked
    ensures Enabled(y, Do(sid, HandSettles(x)))
    ensures var y' := Step(y, Do(sid, HandSettles(x)));
            && y'.ready == y.ready + multiset{y.sessions[sid].unacked[x.tag]}
            && |y'.sessions| == |y.sessions| && x.tag !in y'.sessions[sid].unacked
  {
  }
}
