/** Whose entry a timer takes. It looks its message id up afresh, so this is not clear from the code. */
module DeliveryTimers {
  import opened Wrappers
  import opened Envelope
  import opened MultisetOfMap
  import opened Delivery
  import opened DeliveryInvariant
  import opened DeliveryTheorems
  import opened DeliveryDistinct

  predicate IsLive(timers: map<Tag, Timer>, t: Tag) {
    t in timers && timers[t].state in {Armed, Fired}
  }

  ghost predicate WasRemoved(removed: seq<Removal>, id: string) {
    exists i :: 0 <= i < |removed| && removed[i].msg.body.Payload? && removed[i].msg.body.messageId == id
  }

  /** While a timer can still take something, its delivery is unacked or its message is gone for good. */
  ghost predicate LiveKept(timers: map<Tag, Timer>, unacked: Unacked, removed: seq<Removal>) {
    forall t :: IsLive(timers, t) ==> IsPayload(unacked, t, timers[t].messageId) || WasRemoved(removed, timers[t].messageId)
  }

  /** A delivery in the hand of a timer has no timer any more. */
  ghost predicate HandsSpent(timers: map<Tag, Timer>, hands: multiset<Settlement>) {
    forall x :: x in hands && x.cause.ByTimeout? ==> !IsLive(timers, x.tag)
  }

  /** Timers belong to deliveries that the consumer is done with. */
  ghost predicate TimersBehind(timers: map<Tag, Timer>, nextTag: Tag, c: Consumer, buffer: seq<Delivered>) {
    forall t :: t in timers ==>
      t < nextTag && ConsumerTag(c) != Some(t) && forall i :: 0 <= i < |buffer| ==> buffer[i].tag != t
  }

  ghost predicate TimersInv(s: Session, removed: seq<Removal>) {
    PendingOpen(s) ==>
      && LiveKept(s.timers, s.unacked, removed) && HandsSpent(s.timers, s.hands)
      && TimersBehind(s.timers, s.nextTag, s.consumer, s.buffer)
  }

  ghost predicate AllTimers(ss: seq<Session>, removed: seq<Removal>) {
    forall sid :: 0 <= sid < |ss| ==> TimersInv(ss[sid], removed)
  }

  /** If the timer takes an entry, then its own. */
  predicate TakesOwn(s: Session, t: Tag) {
    t in s.timers && (s.timers[t].messageId in s.pending ==> s.pending[s.timers[t].messageId] == t)
  }

  // ---- With distinct messages a timer takes its own entry

  lemma {:induction false} RemovedIsCounted(rs: seq<Removal>, i: nat)
    requires i < |rs|
    ensures rs[i].msg in Messages(rs)
  {
    if i < |rs| - 1 {
      RemovedIsCounted(rs[..|rs| - 1], i);
    }
  }

  lemma EntryIsPayload(s: Session, dev: string, id: string)
    requires SessionInv(s, dev) && id in s.pending
    ensures PendingOpen(s) && IsPayload(s.unacked, s.pending[id], id)
  {
    assert PendingOpen(s);
    var p :| Placed(s, dev, p);
    hide BufferInv, ConsumerInv, HandsInv, LostInv, WrittenInv;
  }

  /** A message is not both outstanding and removed. */
  lemma OutstandingOrRemoved(y: System, sid: nat, u: Tag, id: string)
    requires Conserved(y) && DistinctPayloads(y.enqueued)
    requires sid < |y.sessions| && IsPayload(y.sessions[sid].unacked, u, id)
    ensures !WasRemoved(y.removed, id)
  {
    var m := y.sessions[sid].unacked[u];
    TagCounts(y.sessions[sid].unacked, u);
    OneSessionOfAll(y.sessions, sid);
    hide Values, AllUnacked;
    forall i | 0 <= i < |y.removed| && y.removed[i].msg.body.Payload?
      ensures y.removed[i].msg.body.messageId != id
    {
      var n := y.removed[i].msg;
      RemovedIsCounted(y.removed, i);
      hide Messages;
      assert m in AllUnacked(y.sessions) && n in Messages(y.removed);
      assert y.enqueued[m] == y.ready[m] + AllUnacked(y.sessions)[m] + Messages(y.removed)[m];
      assert m in y.enqueued && n in y.enqueued;
    }
  }

  lemma LiveTakesOwn(y: System, sid: nat, t: Tag)
    requires SystemInv(y) && DistinctPayloads(y.enqueued) && sid < |y.sessions|
    requires TimersInv(y.sessions[sid], y.removed) && IsLive(y.sessions[sid].timers, t)
    ensures TakesOwn(y.sessions[sid], t)
  {
    var s := y.sessions[sid];
    var id := s.timers[t].messageId;
    DistinctEnqueued(y);
    assert DistinctIds(s.unacked);
    if id in s.pending {
      EntryIsPayload(s, y.deviceId, id);
      OutstandingOrRemoved(y, sid, s.pending[id], id);
    }
    hide SessionInv, Conserved, RemovalsInv, ReceiptsInv, CurrentInv, DistinctPayloads, WasRemoved;
  }

  // ---- Steps

  lemma MoreRemoved(s: Session, removed: seq<Removal>, more: seq<Removal>)
    requires TimersInv(s, removed)
    ensures TimersInv(s, removed + more)
  {
    forall id | WasRemoved(removed, id) ensures WasRemoved(removed + more, id) {
      var i :| 0 <= i < |removed| && removed[i].msg.body.Payload? && removed[i].msg.body.messageId == id;
      assert (removed + more)[i] == removed[i];
    }
    hide WasRemoved, HandsSpent, TimersBehind;
  }

  lemma PushTimers(s: Session, m: Message, removed: seq<Removal>)
    requires TimersInv(s, removed)
    ensures TimersInv(Push(s, m), removed)
  {
    hide WasRemoved, HandsSpent;
  }

  lemma TakeTimers(s: Session, removed: seq<Removal>)
    requires TimersInv(s, removed) && s.consumer.Idle? && s.buffer != []
    ensures TimersInv(Take(s), removed)
  {
    hide WasRemoved, HandsSpent, LiveKept;
  }

  lemma HandleTimers(s: Session, dev: string, writes: seq<bool>, removed: seq<Removal>)
    requires TimersInv(s, removed) && s.consumer.Handling?
    ensures TimersInv(Handle(s, dev, writes), removed)
  {
    hide WasRemoved, HandsSpent, LiveKept, Judge;
  }

  lemma InsertedIsNew(s: Session, dev: string)
    requires SessionInv(s, dev) && PendingOpen(s) && s.consumer.Inserting?
    ensures var tag := s.consumer.tag;
            && IsPayload(s.unacked, tag, s.consumer.messageId) && tag < s.nextTag
            && (forall x :: x in s.hands ==> x.tag != tag) && (forall i :: 0 <= i < |s.buffer| ==> s.buffer[i].tag != tag)
  {
    hide HistoryInv, PendingInv, LostInv, WrittenInv;
    var p :| Placed(s, dev, p);
  }

  lemma ArmTimer(timers: map<Tag, Timer>, unacked: Unacked, hands: multiset<Settlement>, removed: seq<Removal>,
                 nextTag: Tag, buffer: seq<Delivered>, c: Consumer, tag: Tag, id: string)
    requires LiveKept(timers, unacked, removed) && HandsSpent(timers, hands) && TimersBehind(timers, nextTag, c, buffer)
    requires IsPayload(unacked, tag, id) && tag < nextTag && forall x :: x in hands ==> x.tag != tag
    requires forall i :: 0 <= i < |buffer| ==> buffer[i].tag != tag
    ensures var timers' := timers[tag := Timer(id, Armed)];
            LiveKept(timers', unacked, removed) && HandsSpent(timers', hands) && TimersBehind(timers', nextTag, Idle, buffer)
  {
    hide WasRemoved;
  }

  lemma InsertTimers(s: Session, dev: string, removed: seq<Removal>)
    requires SessionInv(s, dev) && TimersInv(s, removed) && PendingOpen(s) && s.consumer.Inserting?
    ensures TimersInv(Insert(s), removed)
  {
    InsertedIsNew(s, dev);
    hide SessionInv, LiveKept, HandsSpent, TimersBehind;
    ArmTimer(s.timers, s.unacked, s.hands, removed, s.nextTag, s.buffer, s.consumer, s.consumer.tag, s.consumer.messageId);
  }

  /** Timers that are stopped, spent or fired, with nothing new in the hands of timers but a spent one. */
  lemma FewerLive(s: Session, s': Session, removed: seq<Removal>)
    requires TimersInv(s, removed) && s'.timers.Keys == s.timers.Keys
    requires forall t :: IsLive(s'.timers, t) ==> IsLive(s.timers, t) && s'.timers[t].messageId == s.timers[t].messageId
    requires forall x :: x in s'.hands && x.cause.ByTimeout? ==> x in s.hands || !IsLive(s'.timers, x.tag)
    requires s'.stage == s.stage && s'.unacked == s.unacked && s'.consumer == s.consumer
    requires s'.buffer == s.buffer && s'.nextTag == s.nextTag
    ensures TimersInv(s', removed)
  {
    assert forall t :: t in s'.timers <==> t in s.timers;
    hide WasRemoved;
  }

  lemma HeldIsPayload(s: Session, dev: string, x: Settlement)
    requires SessionInv(s, dev) && s.stage != Closed && x in s.hands
    ensures (x.cause.ByReceipt? || x.cause.ByTimeout?) && IsPayload(s.unacked, x.tag, x.cause.messageId)
  {
    var p :| Placed(s, dev, p);
    hide BufferInv, ConsumerInv, PendingInv, LostInv, WrittenInv;
  }

  lemma SettleInHandUnacks(s: Session, sid: nat, x: Settlement)
    requires x in s.hands && x.tag in s.unacked && s.stage != Closed
    ensures SettleInHand(s, x) == s.(unacked := s.unacked - {x.tag}, settled := s.settled + [x.tag], hands := s.hands - multiset{x})
    ensures x.cause.ByReceipt? ==> Removals(s, sid, HandSettles(x)) == [Removal(sid, x.tag, s.unacked[x.tag], x.cause)]
  {
  }

  /** Taking x out of the hands and off the channel, when its own timer is spent or its message removed. */
  lemma UnackTimers(s: Session, x: Settlement, settled: seq<Tag>, removed: seq<Removal>)
    requires TimersInv(s, removed) && x in s.hands && PendingOpen(s)
    requires (x.cause.ByReceipt? || x.cause.ByTimeout?) && IsPayload(s.unacked, x.tag, x.cause.messageId)
    requires x.cause.ByReceipt? ==> WasRemoved(removed, x.cause.messageId)
    ensures TimersInv(s.(unacked := s.unacked - {x.tag}, settled := settled, hands := s.hands - multiset{x}), removed)
  {
    hide WasRemoved;
  }

  lemma SettleHandTimers(s: Session, sid: nat, x: Settlement, removed: seq<Removal>)
    requires TimersInv(s, removed) && x in s.hands && PendingOpen(s)
    requires (x.cause.ByReceipt? || x.cause.ByTimeout?) && IsPayload(s.unacked, x.tag, x.cause.messageId)
    ensures TimersInv(SettleInHand(s, x), removed + Removals(s, sid, HandSettles(x)))
  {
    SettleInHandUnacks(s, sid, x);
    hide TimersInv, SettleInHand, Removals;
    var more := Removals(s, sid, HandSettles(x));
    MoreRemoved(s, removed, more);
    if x.cause.ByReceipt? {
      assert (removed + more)[|removed|] == more[0];
      assert WasRemoved(removed + more, x.cause.messageId);
    }
    hide WasRemoved;
    UnackTimers(s, x, s.settled + [x.tag], removed + more);
  }

  lemma SettleConsumerTimers(s: Session, removed: seq<Removal>)
    requires TimersInv(s, removed) && s.consumer.Settling? && PendingOpen(s)
    ensures TimersInv(SettleByConsumer(s), removed)
  {
    hide WasRemoved, HandsSpent;
  }

  /** The consumer returns, or the cleanup goes on. */
  lemma RestTimers(s: Session, dev: string, a: Act, removed: seq<Removal>)
    requires Can(s, a) && TimersInv(s, removed)
    requires a.ConsumerExits? || a.CancelsConsumer? || a.ClearsPending? || a.ClosesChannel?
    ensures TimersInv(After(s, dev, a), removed)
  {
    hide LiveKept, HandsSpent;
  }

  lemma ClosedTimers(s: Session, removed: seq<Removal>)
    requires !PendingOpen(s)
    ensures TimersInv(s, removed)
  {
  }

  lemma ReceiptTimers(s: Session, id: string, removed: seq<Removal>)
    requires TimersInv(s, removed)
    ensures TimersInv(TakeByReceipt(s, id), removed)
  {
    FewerLive(s, TakeByReceipt(s, id), removed);
    hide TimersInv, LiveKept, HandsSpent, TimersBehind;
  }

  lemma FireTimers(s: Session, t: Tag, removed: seq<Removal>)
    requires TimersInv(s, removed) && t in s.timers && s.timers[t].state == Armed
    ensures TimersInv(Fire(s, t), removed)
  {
    FewerLive(s, Fire(s, t), removed);
    hide TimersInv, LiveKept, HandsSpent, TimersBehind;
  }

  lemma OwnTimers(s: Session, t: Tag, removed: seq<Removal>)
    requires TimersInv(s, removed) && TakesOwn(s, t) && s.timers[t].state == Fired
    ensures TimersInv(TakeByTimer(s, t), removed)
  {
    FewerLive(s, TakeByTimer(s, t), removed);
    hide TimersInv, LiveKept, HandsSpent, TimersBehind;
  }

  lemma SettlingAct(s: Session, dev: string, sid: nat, a: Act, removed: seq<Removal>)
    requires SessionInv(s, dev) && Can(s, a) && TimersInv(s, removed) && (a.HandSettles? || a.ConsumerSettles?)
    ensures TimersInv(After(s, dev, a), removed + Removals(s, sid, a))
  {
    if !PendingOpen(s) {
      SettleHands(s, if a.HandSettles? then a.settlement.tag else s.consumer.settlement.tag);
      ClosedTimers(After(s, dev, a), removed + Removals(s, sid, a));
    } else if a.HandSettles? {
      HeldIsPayload(s, dev, a.settlement);
      SettleHandTimers(s, sid, a.settlement, removed);
    } else {
      SettleConsumerTimers(s, removed);
      MoreRemoved(SettleByConsumer(s), removed, Removals(s, sid, a));
    }
    hide TimersInv, SessionInv, Removals, SettleTag;
  }

  lemma ActTimers(s: Session, dev: string, sid: nat, a: Act, removed: seq<Removal>)
    requires SessionInv(s, dev) && Can(s, a) && TimersInv(s, removed) && (a.TimerTakes? ==> TakesOwn(s, a.timer))
    ensures TimersInv(After(s, dev, a), removed + Removals(s, sid, a))
  {
    if a.HandSettles? || a.ConsumerSettles? {
      SettlingAct(s, dev, sid, a, removed);
    } else {
      assert Removals(s, sid, a) == [] && removed + [] == removed;
      match a {
        case BrokerPushes(m) => PushTimers(s, m, removed);
        case ConsumerTakes => TakeTimers(s, removed);
        case ConsumerHandles(writes) => HandleTimers(s, dev, writes, removed);
        case ConsumerInserts => InsertTimers(s, dev, removed);
        case ReceiptTakes(id) => ReceiptTimers(s, id, removed);
        case TimerFires(t) => FireTimers(s, t, removed);
        case TimerTakes(t) => OwnTimers(s, t, removed);
        case _ => RestTimers(s, dev, a, removed);
      }
    }
    hide TimersInv, SessionInv, Removals, TakesOwn, Push, Take, Handle, Insert, Fire, TakeByReceipt, TakeByTimer;
  }

  lemma SetTimers(ss: seq<Session>, i: nat, s: Session, removed: seq<Removal>, more: seq<Removal>)
    requires AllTimers(ss, removed) && i < |ss| && TimersInv(s, removed + more)
    ensures AllTimers(ss[i := s], removed + more)
  {
    hide TimersInv;
    forall sid | 0 <= sid < |ss| ensures TimersInv(ss[sid], removed + more) {
      MoreRemoved(ss[sid], removed, more);
    }
  }

  lemma OpenTimers(ss: seq<Session>, removed: seq<Removal>)
    requires AllTimers(ss, removed)
    ensures AllTimers(ss + [NEW_SESSION], removed)
  {
    assert TimersInv(NEW_SESSION, removed);
    hide TimersInv;
  }

  lemma DoTimers(y: System, sid: nat, a: Act)
    requires SystemInv(y) && DistinctPayloads(y.enqueued) && AllTimers(y.sessions, y.removed) && Enabled(y, Do(sid, a))
    ensures AllTimers(Step(y, Do(sid, a)).sessions, Step(y, Do(sid, a)).removed)
  {
    var s := y.sessions[sid];
    assert TimersInv(s, y.removed) && SessionInv(s, y.deviceId);
    if a.TimerTakes? {
      LiveTakesOwn(y, sid, a.timer);
    }
    hide SystemInv, AllTimers, TimersInv, After, Returned, Removals, DistinctPayloads, SessionInv, TakesOwn;
    ActTimers(s, y.deviceId, sid, a, y.removed);
    hide Can;
    SetTimers(y.sessions, sid, After(s, y.deviceId, a), y.removed, Removals(s, sid, a));
  }

  lemma DetachTimers(y: System)
    requires CurrentInv(y) && AllTimers(y.sessions, y.removed) && Enabled(y, Label.Detach)
    ensures AllTimers(Step(y, Label.Detach).sessions, y.removed)
  {
    var sid := y.current.value;
    var s := y.sessions[sid].(stage := Stage.Detached);
    assert TimersInv(s, y.removed);
    assert y.removed + [] == y.removed;
    hide TimersInv, AllTimers;
    SetTimers(y.sessions, sid, s, y.removed, []);
  }

  lemma StepTimers(y: System, l: Label)
    requires SystemInv(y) && DistinctPayloads(y.enqueued) && AllTimers(y.sessions, y.removed) && Enabled(y, l)
    ensures AllTimers(Step(y, l).sessions, Step(y, l).removed)
  {
    match l {
      case Do(sid, a) =>
        DoTimers(y, sid, a);
        hide Step;
      case Detach => DetachTimers(y);
      case Open => OpenTimers(y.sessions, y.removed);
      case _ =>
    }
    hide SystemInv, AllTimers, After, Can, Returned, Removals, DistinctPayloads;
  }

  lemma {:induction false} RunTimers(y: System, ls: seq<Label>)
    requires SystemInv(y) && IsRun(y, ls) && DistinctPayloads(Exec(y, ls).enqueued) && AllTimers(y.sessions, y.removed)
    ensures AllTimers(Exec(y, ls).sessions, Exec(y, ls).removed)
    decreases |ls|
  {
    EnqueuedGrows(y, ls);
    FewerAreDistinct(y.enqueued, Exec(y, ls).enqueued);
    if ls != [] {
      StepTimers(y, ls[0]);
      StepKeeps(y, ls[0]);
      hide SystemInv, AllTimers, Step, Enabled, DistinctPayloads;
      RunTimers(Step(y, ls[0]), ls[1..]);
    }
  }

  lemma Initially(dev: string)
    ensures SystemInv(Init(dev)) && AllTimers(Init(dev).sessions, Init(dev).removed)
  {
    Reachable(dev, []);
  }

  lemma TakingIsLive(y: System, sid: nat, t: Tag)
    requires Enabled(y, Do(sid, TimerTakes(t)))
    ensures sid < |y.sessions| && IsLive(y.sessions[sid].timers, t)
  {
  }

  lemma OneOfAll(ss: seq<Session>, removed: seq<Removal>, sid: nat)
    requires AllTimers(ss, removed) && sid < |ss|
    ensures TimersInv(ss[sid], removed)
  {
  }

  /** When the payloads ever enqueued have distinct ids, a timer that takes an entry takes its own. */
  lemma TimersTakeTheirOwn(dev: string, ls: seq<Label>, sid: nat, t: Tag)
    requires IsRun(Init(dev), ls) && DistinctPayloads(Exec(Init(dev), ls).enqueued)
    requires Enabled(Exec(Init(dev), ls), Do(sid, TimerTakes(t)))
    ensures TakesOwn(Exec(Init(dev), ls).sessions[sid], t)
  {
    hide *;
    Initially(dev);
    Reachable(dev, ls);
    RunTimers(Init(dev), ls);
    var y := Exec(Init(dev), ls);
    TakingIsLive(y, sid, t);
    OneOfAll(y.sessions, y.removed, sid);
    LiveTakesOwn(y, sid, t);
  }
}
