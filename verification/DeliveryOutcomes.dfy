/** What each episode of the protocol does to a message, step by step from any state that allows it. */
module DeliveryOutcomes {
  import opened Wrappers
  import opened Envelope
  import opened Delivery
  import opened DeliveryInvariant
  import opened DeliveryTheorems
  import opened DeliveryGuarantees

  /** The frame was published by this very device. */
  predicate FromOwnDevice(m: Message, deviceId: string) {
    m.source.Some? && deviceId != "" && TrimSpace(m.source.value) == deviceId
  }

  /** Whether the frame is left undelivered, to be tried again. */
  predicate IsUndelivered(m: Message, deviceId: string, writes: seq<bool>) {
    !m.body.Undecodable? && !FromOwnDevice(m, deviceId) && true !in writes
  }

  /** The consumer has just taken the delivery off the open channel. */
  predicate HasInHand(s: Session, d: Delivered) {
    s.stage != Closed && s.consumer == Handling(d) && d.tag in s.unacked && s.unacked[d.tag] == d.msg
  }

  lemma RunTwo(y: System, a: Label, b: Label)
    requires Enabled(y, a) && Enabled(Step(y, a), b)
    ensures IsRun(y, [a, b]) && Exec(y, [a, b]) == Step(Step(y, a), b)
  {
    var y1 := Step(y, a);
    var y2 := Step(y1, b);
    assert [a, b][1..] == [b] && [b][1..] == [] && IsRun(y2, []) && Exec(y2, []) == y2;
    assert IsRun(y1, [b]) && Exec(y1, [b]) == y2;
  }

  lemma HandledThen(y: System, sid: nat, d: Delivered, writes: seq<bool>)
    requires sid < |y.sessions| && HasInHand(y.sessions[sid], d)
    ensures Enabled(y, Do(sid, ConsumerHandles(writes)))
    ensures var y' := Step(y, Do(sid, ConsumerHandles(writes)));
            && y'.ready == y.ready && y'.removed == y.removed && y'.deviceId == y.deviceId && |y'.sessions| == |y.sessions|
            && y'.sessions[sid] == Handle(y.sessions[sid], y.deviceId, writes)
  {
    assert y.ready - multiset{} + multiset{} == y.ready;
    hide Handle, Judge;
  }

  /** A handled frame that is settled at once leaves the channel; it is back in the queue only if it is undelivered. */
  lemma HandledFrameSettles(y: System, sid: nat, d: Delivered, writes: seq<bool>)
    requires sid < |y.sessions| && HasInHand(y.sessions[sid], d)
    requires d.msg.body.Payload? && true in writes ==> FromOwnDevice(d.msg, y.deviceId)
    ensures var ls := [Do(sid, ConsumerHandles(writes)), Do(sid, ConsumerSettles)];
            && IsRun(y, ls)
            && var y' := Exec(y, ls);
               && |y'.sessions| == |y.sessions| && y'.sessions[sid].consumer == Idle
               && y'.sessions[sid].unacked == y.sessions[sid].unacked - {d.tag}
               && if IsUndelivered(d.msg, y.deviceId, writes)
                  then y'.ready == y.ready + multiset{d.msg} && y'.removed == y.removed
                  else y'.ready == y.ready && |y'.removed| == |y.removed| + 1 && y'.removed[|y.removed|].msg == d.msg
  {
    var a, b := Do(sid, ConsumerHandles(writes)), Do(sid, ConsumerSettles);
    HandledThen(y, sid, d, writes);
    SettledNext(Step(y, a), sid, y.sessions[sid], d, writes);
    hide Step, Enabled, IsRun, Exec;
    RunTwo(y, a, b);
  }

  lemma HandledSettlement(s: Session, deviceId: string, d: Delivered, writes: seq<bool>)
    requires HasInHand(s, d) && (d.msg.body.Payload? && true in writes ==> FromOwnDevice(d.msg, deviceId))
    ensures var s' := Handle(s, deviceId, writes);
            && s'.consumer.Settling? && s'.consumer.settlement.tag == d.tag
            && s'.unacked == s.unacked && s'.stage == s.stage
            && (ActionOf(s'.consumer.settlement.cause) == Requeue <==> IsUndelivered(d.msg, deviceId, writes))
  {
    hide TrimSpace;
  }

  /** The consumer's settlement of an unacked tag on an open channel. */
  lemma ConsumerSettlement(y: System, sid: nat, x: Settlement, m: Message)
    requires sid < |y.sessions| && y.sessions[sid].stage != Closed && y.sessions[sid].consumer == Settling(x)
    requires x.tag in y.sessions[sid].unacked && y.sessions[sid].unacked[x.tag] == m
    ensures Enabled(y, Do(sid, ConsumerSettles))
    ensures var y' := Step(y, Do(sid, ConsumerSettles));
            && |y'.sessions| == |y.sessions| && y'.sessions[sid].consumer == Idle
            && y'.sessions[sid].unacked == y.sessions[sid].unacked - {x.tag}
            && if ActionOf(x.cause) == Requeue then y'.ready == y.ready + multiset{m} && y'.removed == y.removed
               else y'.ready == y.ready && |y'.removed| == |y.removed| + 1 && y'.removed[|y.removed|].msg == m
  {
    hide ActionOf;
    assert y.ready - multiset{} + multiset{} == y.ready && y.ready - multiset{} + multiset{m} == y.ready + multiset{m};
  }

  lemma SettledNext(y: System, sid: nat, s: Session, d: Delivered, writes: seq<bool>)
    requires sid < |y.sessions| && HasInHand(s, d) && y.sessions[sid] == Handle(s, y.deviceId, writes)
    requires d.msg.body.Payload? && true in writes ==> FromOwnDevice(d.msg, y.deviceId)
    ensures Enabled(y, Do(sid, ConsumerSettles))
    ensures var y' := Step(y, Do(sid, ConsumerSettles));
            && |y'.sessions| == |y.sessions| && y'.sessions[sid].consumer == Idle
            && y'.sessions[sid].unacked == s.unacked - {d.tag}
            && if IsUndelivered(d.msg, y.deviceId, writes)
               then y'.ready == y.ready + multiset{d.msg} && y'.removed == y.removed
               else y'.ready == y.ready && |y'.removed| == |y.removed| + 1 && y'.removed[|y.removed|].msg == d.msg
  {
    HandledSettlement(s, y.deviceId, d, writes);
    hide Handle, ActionOf, IsUndelivered, FromOwnDevice, Step, Enabled;
    ConsumerSettlement(y, sid, y.sessions[sid].consumer.settlement, d.msg);
  }

  /** A payload that reached some socket keeps its tag, gets its entry, and a running timer of its own. */
  lemma ForwardedPayloadWaits(y: System, sid: nat, d: Delivered, writes: seq<bool>)
    requires sid < |y.sessions| && HasInHand(y.sessions[sid], d) && PendingOpen(y.sessions[sid])
    requires d.msg.body.Payload? && true in writes && !FromOwnDevice(d.msg, y.deviceId)
    ensures var ls := [Do(sid, ConsumerHandles(writes)), Do(sid, ConsumerInserts)];
            && IsRun(y, ls)
            && var s, y', id := y.sessions[sid], Exec(y, ls), d.msg.body.messageId;
               && y'.ready == y.ready && y'.removed == y.removed && |y'.sessions| == |y.sessions|
               && var s' := y'.sessions[sid];
                  && s'.consumer == Idle && s'.unacked == s.unacked && s'.pending == s.pending[id := d.tag]
                  && s'.timers == s.timers[d.tag := Timer(id, Armed)]
  {
    var a, b := Do(sid, ConsumerHandles(writes)), Do(sid, ConsumerInserts);
    HandledThen(y, sid, d, writes);
    InsertedNext(Step(y, a), sid, y.sessions[sid], d, writes);
    hide Step, Enabled, IsRun, Exec;
    RunTwo(y, a, b);
  }

  lemma InsertedNext(y: System, sid: nat, s: Session, d: Delivered, writes: seq<bool>)
    requires sid < |y.sessions| && HasInHand(s, d) && PendingOpen(s) && y.sessions[sid] == Handle(s, y.deviceId, writes)
    requires d.msg.body.Payload? && true in writes && !FromOwnDevice(d.msg, y.deviceId)
    ensures Enabled(y, Do(sid, ConsumerInserts))
    ensures var y', id := Step(y, Do(sid, ConsumerInserts)), d.msg.body.messageId;
            && y'.ready == y.ready && y'.removed == y.removed && |y'.sessions| == |y.sessions|
            && var s' := y'.sessions[sid];
               && s'.consumer == Idle && s'.unacked == s.unacked && s'.pending == s.pending[id := d.tag]
               && s'.timers == s.timers[d.tag := Timer(id, Armed)]
  {
    hide TrimSpace;
    assert y.ready - multiset{} + multiset{} == y.ready;
  }

  // ---- Receipts

  /** A DELIVERED receipt on the live session takes the entry, stops its timer and removes the message for good. */
  lemma ReceiptAcks(y: System, sid: nat, id: string)
    requires y.current == Some(sid) && sid < |y.sessions| && y.sessions[sid].stage != Closed
    requires id in y.sessions[sid].pending && y.sessions[sid].pending[id] in y.sessions[sid].unacked
    ensures var s := y.sessions[sid];
            var t := s.pending[id];
            var ls := [ReceiptArrives(id)] + [Do(sid, ReceiptTakes(id)), Do(sid, HandSettles(Settlement(t, ByReceipt(id))))];
            && IsRun(y, ls)
            && var y' := Exec(y, ls);
               && y'.ready == y.ready && |y'.sessions| == |y.sessions|
               && |y'.removed| == |y.removed| + 1 && y'.removed[|y.removed|].msg == s.unacked[t]
               && var s' := y'.sessions[sid];
                  && s'.unacked == s.unacked - {t} && s'.pending == s.pending - {id}
                  && (t in s'.timers ==> s'.timers[t].state != Armed)
  {
    var t := y.sessions[sid].pending[id];
    var a, b, c := ReceiptArrives(id), Do(sid, ReceiptTakes(id)), Do(sid, HandSettles(Settlement(t, ByReceipt(id))));
    var y1 := Step(y, a);
    assert y1.sessions == y.sessions && y1.ready == y.ready && y1.removed == y.removed && (sid, id) in y1.lookups;
    ReceiptLooks(y1, sid, id);
    HandAcks(Step(y1, b), sid, y.sessions[sid], Settlement(t, ByReceipt(id)));
    assert Enabled(y, a);
    hide Step, Enabled, IsRun, Exec;
    RunTwo(y1, b, c);
    RunFirst(y, a, [b, c]);
  }

  lemma RunFirst(y: System, a: Label, ls: seq<Label>)
    requires Enabled(y, a) && IsRun(Step(y, a), ls)
    ensures IsRun(y, [a] + ls) && Exec(y, [a] + ls) == Exec(Step(y, a), ls)
  {
    assert ([a] + ls)[1..] == ls;
  }

  lemma ReceiptLooks(y: System, sid: nat, id: string)
    requires sid < |y.sessions| && (sid, id) in y.lookups && id in y.sessions[sid].pending
    ensures Enabled(y, Do(sid, ReceiptTakes(id)))
    ensures var s, y' := y.sessions[sid], Step(y, Do(sid, ReceiptTakes(id)));
            var t := s.pending[id];
            && y'.ready == y.ready && y'.removed == y.removed && |y'.sessions| == |y.sessions|
            && var s' := y'.sessions[sid];
               && Settlement(t, ByReceipt(id)) in s'.hands && s'.unacked == s.unacked && s'.stage == s.stage
               && s'.pending == s.pending - {id} && (t in s'.timers ==> s'.timers[t].state != Armed)
  {
    assert y.ready - multiset{} + multiset{} == y.ready;
  }

  lemma HandAcks(y: System, sid: nat, s: Session, x: Settlement)
    requires sid < |y.sessions| && x in y.sessions[sid].hands && x.cause.ByReceipt? && y.sessions[sid].stage != Closed
    requires y.sessions[sid].unacked == s.unacked && x.tag in s.unacked
    ensures Enabled(y, Do(sid, HandSettles(x)))
    ensures var y' := Step(y, Do(sid, HandSettles(x)));
            && y'.ready == y.ready && |y'.sessions| == |y.sessions|
            && |y'.removed| == |y.removed| + 1 && y'.removed[|y.removed|].msg == s.unacked[x.tag]
            && y'.sessions[sid].unacked == s.unacked - {x.tag}
            && y'.sessions[sid].pending == y.sessions[sid].pending && y'.sessions[sid].timers == y.sessions[sid].timers
  {
    assert y.ready - multiset{} + multiset{} == y.ready;
  }

  // ---- Timers

  /** A fired timer takes whatever entry its message id names now, which then goes back to the queue. */
  lemma TimerRequeues(y: System, sid: nat, timer: Tag)
    requires sid < |y.sessions| && y.sessions[sid].stage != Closed
    requires timer in y.sessions[sid].timers && y.sessions[sid].timers[timer].state == Fired
    requires var s := y.sessions[sid];
             s.timers[timer].messageId in s.pending && s.pending[s.timers[timer].messageId] in s.unacked
    ensures var s := y.sessions[sid];
            var id := s.timers[timer].messageId;
            var t := s.pending[id];
            var ls := [Do(sid, TimerTakes(timer)), Do(sid, HandSettles(Settlement(t, ByTimeout(id))))];
            && IsRun(y, ls)
            && var y' := Exec(y, ls);
               && y'.ready == y.ready + multiset{s.unacked[t]} && y'.removed == y.removed && |y'.sessions| == |y.sessions|
               && var s' := y'.sessions[sid];
                  s'.unacked == s.unacked - {t} && s'.pending == s.pending - {id} && s'.timers == s.timers[timer := Timer(id, Done)]
  {
    var s := y.sessions[sid];
    var id := s.timers[timer].messageId;
    var x := Settlement(s.pending[id], ByTimeout(id));
    var a, b := Do(sid, TimerTakes(timer)), Do(sid, HandSettles(x));
    TimerLooks(y, sid, timer);
    HandRequeues(Step(y, a), sid, s, x);
    hide Step, Enabled, IsRun, Exec;
    RunTwo(y, a, b);
  }

  /** Without such an entry it does nothing more. */
  lemma TimerLooks(y: System, sid: nat, timer: Tag)
    requires sid < |y.sessions|
    requires timer in y.sessions[sid].timers && y.sessions[sid].timers[timer].state == Fired
    ensures Enabled(y, Do(sid, TimerTakes(timer)))
    ensures var s, y' := y.sessions[sid], Step(y, Do(sid, TimerTakes(timer)));
            var id := s.timers[timer].messageId;
            && y'.ready == y.ready && y'.removed == y.removed && |y'.sessions| == |y.sessions|
            && var s' := y'.sessions[sid];
               && s'.unacked == s.unacked && s'.stage == s.stage && s'.timers == s.timers[timer := Timer(id, Done)]
               && s'.pending == s.pending - {id}
               && s'.hands == s.hands + if id in s.pending then multiset{Settlement(s.pending[id], ByTimeout(id))} else multiset{}
  {
    assert y.ready - multiset{} + multiset{} == y.ready;
  }

  lemma HandRequeues(y: System, sid: nat, s: Session, x: Settlement)
    requires sid < |y.sessions| && x in y.sessions[sid].hands && x.cause.ByTimeout? && y.sessions[sid].stage != Closed
    requires y.sessions[sid].unacked == s.unacked && x.tag in s.unacked
    ensures Enabled(y, Do(sid, HandSettles(x)))
    ensures var y' := Step(y, Do(sid, HandSettles(x)));
            && y'.ready == y.ready + multiset{s.unacked[x.tag]} && y'.removed == y.removed && |y'.sessions| == |y.sessions|
            && y'.sessions[sid].unacked == s.unacked - {x.tag}
            && y'.sessions[sid].pending == y.sessions[sid].pending && y'.sessions[sid].timers == y.sessions[sid].timers
  {
    hide Handle, Push, Insert, ClearPending, TakeByReceipt, TakeByTimer, Fire, Take;
    assert y.ready - multiset{} + multiset{s.unacked[x.tag]} == y.ready + multiset{s.unacked[x.tag]};
  }

  // ---- The broker's side, and cleanup

  /** A message pushed to the channel leaves the queue and is unacked under a tag that was never used before. */
  lemma PushTakesFromQueue(dev: string, ls: seq<Label>, sid: nat, m: Message)
    requires IsRun(Init(dev), ls) && Enabled(Exec(Init(dev), ls), Do(sid, BrokerPushes(m)))
    ensures var y := Exec(Init(dev), ls);
            var y' := Step(y, Do(sid, BrokerPushes(m)));
            var t := y.sessions[sid].nextTag;
            && m in y.ready && y'.ready == y.ready - multiset{m}
            && t !in y.sessions[sid].unacked && t !in y.sessions[sid].settled
            && y'.sessions[sid].unacked == y.sessions[sid].unacked[t := m]
  {
    var y := Exec(Init(dev), ls);
    ReachableSession(dev, ls, sid);
    assert SessionInv(y.sessions[sid], dev);
    FreshTag(y.sessions[sid], dev);
    hide Exec, IsRun, Placed;
    assert y.ready - multiset{m} + multiset{} == y.ready - multiset{m};
    assert multiset{m} <= y.ready;
  }

  lemma TakeOldest(s: Session, dev: string)
    requires SessionInv(s, dev) && s.stage != Closed && Can(s, ConsumerTakes)
    ensures var s' := After(s, dev, ConsumerTakes);
            && s'.consumer.Handling? && HasInHand(s', s'.consumer.delivery)
            && forall i :: 0 <= i < |s'.buffer| ==> s'.consumer.delivery.tag < s'.buffer[i].tag
  {
    hide HistoryInv, ConsumerInv, PendingInv, HandsInv, LostInv, WrittenInv;
    var p :| Placed(s, dev, p);
  }

  /** The consumer handles deliveries in the order of their tags, each with the message of its tag. */
  lemma ConsumerTakesOldest(dev: string, ls: seq<Label>, sid: nat)
    requires IsRun(Init(dev), ls) && Enabled(Exec(Init(dev), ls), Do(sid, ConsumerTakes))
    requires Exec(Init(dev), ls).sessions[sid].stage != Closed
    ensures var s' := After(Exec(Init(dev), ls).sessions[sid], dev, ConsumerTakes);
            && s'.consumer.Handling? && HasInHand(s', s'.consumer.delivery)
            && forall i :: 0 <= i < |s'.buffer| ==> s'.consumer.delivery.tag < s'.buffer[i].tag
  {
    ReachableSession(dev, ls, sid);
    hide Exec, IsRun, SessionInv, HasInHand, After;
    TakeOldest(Exec(Init(dev), ls).sessions[sid], dev);
  }

  /** Cleanup empties the map and leaves no timer of its entries running. */
  lemma CleanupStopsTimers(s: Session, dev: string)
    requires Can(s, ClearsPending)
    ensures var s' := After(s, dev, ClearsPending);
            && s'.pending == map[] && s'.unacked == s.unacked
            && forall id :: id in s.pending && s.pending[id] in s.timers ==>
                 s.pending[id] in s'.timers && s'.timers[s.pending[id]].state != Armed
  {
  }
}
