/** Reachable states that the guarantees make room for, each with the run that leads to it. */
module DeliveryWitnesses {
  import opened Wrappers
  import opened Envelope
  import opened Delivery

  lemma {:induction false} Then(y: System, ls: seq<Label>, l: Label)
    requires IsRun(y, ls) && Enabled(Exec(y, ls), l)
    ensures IsRun(y, ls + [l]) && Exec(y, ls + [l]) == Step(Exec(y, ls), l)
    decreases |ls|
  {
    if ls == [] {
      assert ls + [l] == [l] && [l][1..] == [];
      assert IsRun(Step(y, l), []);
    } else {
      Then(Step(y, ls[0]), ls[1..], l);
      assert (ls + [l])[1..] == ls[1..] + [l] && (ls + [l])[0] == ls[0];
    }
  }

  /** One queued message and a single live session. */
  ghost predicate Holds(y: System, s: Session, ready: multiset<Message>) {
    |y.sessions| == 1 && y.sessions[0] == s && y.current == Some(0) && y.ready == ready && y.deviceId == "D"
  }

  lemma Started(ms: seq<Message>) returns (ls: seq<Label>)
    ensures IsRun(Init("D"), ls) && Holds(Exec(Init("D"), ls), NEW_SESSION, multiset(ms))
    decreases |ms|
  {
    if ms == [] {
      ls := [];
      assert IsRun(Init("D"), ls);
      Then(Init("D"), ls, Open);
      ls := ls + [Open];
    } else {
      ls := Started(ms[1..]);
      Then(Init("D"), ls, Publish(ms[0]));
      ls := ls + [Publish(ms[0])];
      assert ms == [ms[0]] + ms[1..];
    }
  }

  /** Appends an act of the only session. */
  lemma Act1(ls: seq<Label>, s: Session, ready: multiset<Message>, a: Act) returns (more: seq<Label>)
    requires IsRun(Init("D"), ls) && Holds(Exec(Init("D"), ls), s, ready)
    requires Can(s, a) && Pulled(a) <= ready && !a.ReceiptTakes? && !a.ClosesChannel? && Settled(s, a) == None
    ensures IsRun(Init("D"), more) && Holds(Exec(Init("D"), more), After(s, "D", a), ready - Pulled(a))
  {
    Then(Init("D"), ls, Do(0, a));
    more := ls + [Do(0, a)];
    hide After, Can, Exec, IsRun;
  }

  /** From an idle consumer: a payload is pushed, taken and written to one socket. */
  lemma Forward(ls: seq<Label>, s: Session, ready: multiset<Message>, m: Message) returns (more: seq<Label>, s': Session)
    requires IsRun(Init("D"), ls) && Holds(Exec(Init("D"), ls), s, ready)
    requires s.stage == Live && s.consumer == Idle && s.buffer == [] && m in ready
    requires m.body.Payload? && !IsEchoFor(m, "D")
    ensures IsRun(Init("D"), more) && Holds(Exec(Init("D"), more), s', ready - multiset{m})
    ensures s'.consumer == Inserting(s.nextTag, m.body.messageId) && s'.stage == Live
    ensures s'.pending == s.pending && s'.timers == s.timers && s'.buffer == [] && s'.nextTag == s.nextTag + 1
  {
    assert Judge("D", m, [true]) == Await(m.body.messageId);
    hide Judge, IsEchoFor, Exec, IsRun;
    var s1 := After(s, "D", BrokerPushes(m));
    assert s1.buffer == [Delivered(s.nextTag, m)];
    more := Act1(ls, s, ready, BrokerPushes(m));
    var s2 := After(s1, "D", ConsumerTakes);
    more := Act1(more, s1, ready - multiset{m}, ConsumerTakes);
    s' := After(s2, "D", ConsumerHandles([true]));
    more := Act1(more, s2, ready - multiset{m}, ConsumerHandles([true]));
  }

  /**
   Two outstanding deliveries with one message id, such as the two copies of a group message that
   reach the sender's other devices: the second entry overwrites the first.
   */
  lemma DuplicateIdOverwrites(m: Message) returns (ls: seq<Label>)
    requires m.body.Payload? && !IsEchoFor(m, "D")
    ensures IsRun(Init("D"), ls)
    ensures var y := Exec(Init("D"), ls); |y.sessions| == 1 && 1 in y.sessions[0].overwritten
  {
    var s: Session;
    ls := Started([m, m]);
    hide Exec, IsRun;
    assert multiset([m, m]) - multiset{m} == multiset{m};
    ls, s := Forward(ls, NEW_SESSION, multiset([m, m]), m);
    ls := Act1(ls, s, multiset{m}, ConsumerInserts);
    var s' := After(s, "D", ConsumerInserts);
    assert s'.pending[m.body.messageId] == 1;
    ls, s := Forward(ls, s', multiset{m}, m);
    ls := Act1(ls, s, multiset{m} - multiset{m}, ConsumerInserts);
  }

  /**
   A last disconnect between the socket write and the map insertion: the consumer is about to insert
   into the cleared map, where the code panics. ConsumerInserts is therefore not enabled here.
   */
  lemma InsertCanMeetClearedMap(m: Message) returns (ls: seq<Label>)
    requires m.body.Payload? && !IsEchoFor(m, "D")
    ensures IsRun(Init("D"), ls)
    ensures var y := Exec(Init("D"), ls);
            |y.sessions| == 1 && y.sessions[0].consumer.Inserting? && !PendingOpen(y.sessions[0])
  {
    var s: Session;
    ls := Started([m]);
    ls, s := Forward(ls, NEW_SESSION, multiset([m]), m);
    ls := Disconnect(ls, s, multiset([m]) - multiset{m});
  }

  /** The last connection goes: detach, cancel the consumer, clear the map. */
  lemma Disconnect(ls: seq<Label>, s: Session, ready: multiset<Message>) returns (more: seq<Label>)
    requires IsRun(Init("D"), ls) && Holds(Exec(Init("D"), ls), s, ready) && s.stage == Live
    ensures IsRun(Init("D"), more)
    ensures var y := Exec(Init("D"), more);
            |y.sessions| == 1 && y.sessions[0].consumer == s.consumer && !PendingOpen(y.sessions[0])
  {
    hide Exec, IsRun;
    Then(Init("D"), ls, Detach);
    more := ls + [Detach];
    assert Exec(Init("D"), more).sessions == [s.(stage := Stage.Detached)];
    Then(Init("D"), more, Do(0, CancelsConsumer));
    more := more + [Do(0, CancelsConsumer)];
    assert Exec(Init("D"), more).sessions == [s.(stage := Cancelled)];
    Then(Init("D"), more, Do(0, ClearsPending));
    more := more + [Do(0, ClearsPending)];
  }

  // ---- A stale timer, when one message is enqueued twice

  lemma StepHolds(y: System, s: Session, ready: multiset<Message>, a: Act)
    requires Holds(y, s, ready) && Enabled(y, Do(0, a)) && Pulled(a) == multiset{} && Returned(s, a) == multiset{}
    ensures Holds(Step(y, Do(0, a)), After(s, "D", a), ready)
  {
    assert ready - multiset{} + multiset{} == ready;
    hide Can, After, Pulled, Returned, Removals;
  }

  lemma ArrivalHolds(y: System, s: Session, ready: multiset<Message>, id: string)
    requires Holds(y, s, ready)
    ensures Holds(Step(y, ReceiptArrives(id)), s, ready) && (0, id) in Step(y, ReceiptArrives(id)).lookups
  {
  }

  lemma Looks(y: System, s: Session, ready: multiset<Message>, id: string)
    requires Holds(y, s, ready) && (0, id) in y.lookups
    ensures Enabled(y, Do(0, ReceiptTakes(id))) && Returned(s, ReceiptTakes(id)) == multiset{}
    ensures After(s, "D", ReceiptTakes(id)) == TakeByReceipt(s, id)
  {
    hide TakeByReceipt;
  }

  lemma Acks(y: System, s: Session, ready: multiset<Message>, x: Settlement)
    requires Holds(y, s, ready) && x in s.hands && x.cause.ByReceipt?
    ensures Enabled(y, Do(0, HandSettles(x))) && Returned(s, HandSettles(x)) == multiset{}
    ensures After(s, "D", HandSettles(x)) == SettleInHand(s, x)
  {
    hide SettleInHand;
  }

  /** Appends an arriving receipt and the reader that takes its entry. */
  lemma ReceiptTaken(ls: seq<Label>, s: Session, ready: multiset<Message>, id: string) returns (more: seq<Label>)
    requires IsRun(Init("D"), ls) && Holds(Exec(Init("D"), ls), s, ready)
    ensures IsRun(Init("D"), more) && Holds(Exec(Init("D"), more), TakeByReceipt(s, id), ready)
  {
    var y := Exec(Init("D"), ls);
    assert Enabled(y, ReceiptArrives(id)) && Pulled(ReceiptTakes(id)) == multiset{};
    hide *;
    Then(Init("D"), ls, ReceiptArrives(id));
    more := ls + [ReceiptArrives(id)];
    ArrivalHolds(y, s, ready, id);
    Looks(Exec(Init("D"), more), s, ready, id);
    StepHolds(Exec(Init("D"), more), s, ready, ReceiptTakes(id));
    Then(Init("D"), more, Do(0, ReceiptTakes(id)));
    more := more + [Do(0, ReceiptTakes(id))];
  }

  /** Appends the ack of a hand. */
  lemma Acked(ls: seq<Label>, s: Session, ready: multiset<Message>, x: Settlement) returns (more: seq<Label>)
    requires IsRun(Init("D"), ls) && Holds(Exec(Init("D"), ls), s, ready)
    requires x in s.hands && x.cause.ByReceipt?
    ensures IsRun(Init("D"), more) && Holds(Exec(Init("D"), more), SettleInHand(s, x), ready)
  {
    Acks(Exec(Init("D"), ls), s, ready, x);
    assert Pulled(HandSettles(x)) == multiset{};
    hide *;
    StepHolds(Exec(Init("D"), ls), s, ready, HandSettles(x));
    Then(Init("D"), ls, Do(0, HandSettles(x)));
    more := ls + [Do(0, HandSettles(x))];
  }

  /** The first of two copies waits for its receipt. */
  lemma FirstCopyWaits(m: Message) returns (ls: seq<Label>, s: Session)
    requires m.body.Payload? && !IsEchoFor(m, "D")
    ensures IsRun(Init("D"), ls) && Holds(Exec(Init("D"), ls), s, multiset{m})
    ensures s.stage == Live && s.consumer == Idle && s.buffer == [] && s.nextTag == 2
    ensures s.pending == map[m.body.messageId := 1] && s.timers == map[1 := Timer(m.body.messageId, Armed)]
  {
    hide Exec, IsRun, IsEchoFor;
    ls := Started([m, m]);
    assert multiset([m, m]) - multiset{m} == multiset{m} && multiset{m} - multiset{} == multiset{m};
    ls, s := Forward(ls, NEW_SESSION, multiset([m, m]), m);
    ls := Act1(ls, s, multiset{m}, ConsumerInserts);
    s := After(s, "D", ConsumerInserts);
  }

  /** Its timer fires, and then a receipt takes its entry and acks it. */
  lemma FirstCopyAcked(m: Message) returns (ls: seq<Label>, s: Session)
    requires m.body.Payload? && !IsEchoFor(m, "D")
    ensures IsRun(Init("D"), ls) && Holds(Exec(Init("D"), ls), s, multiset{m})
    ensures s.stage == Live && s.consumer == Idle && s.buffer == [] && s.nextTag == 2
    ensures s.pending == map[] && s.timers == map[1 := Timer(m.body.messageId, Fired)]
  {
    var id := m.body.messageId;
    hide Exec, IsRun, IsEchoFor;
    ls, s := FirstCopyWaits(m);
    var s1 := After(s, "D", TimerFires(1));
    assert multiset{m} - multiset{} == multiset{m};
    ls := Act1(ls, s, multiset{m}, TimerFires(1));
    var s2 := TakeByReceipt(s1, id);
    ls := ReceiptTaken(ls, s1, multiset{m}, id);
    assert s2.pending == map[] && s2.timers == map[1 := Timer(id, Fired)];
    var x := Settlement(1, ByReceipt(id));
    ls := Acked(ls, s2, multiset{m}, x);
    s := SettleInHand(s2, x);
  }

  /**
   The second copy is forwarded and its own timer is armed, and now the first one's timer takes it, long
   before its time is up.
   */
  lemma StaleTimerTakesOther(m: Message) returns (ls: seq<Label>)
    requires m.body.Payload? && !IsEchoFor(m, "D")
    ensures IsRun(Init("D"), ls) && Enabled(Exec(Init("D"), ls), Do(0, TimerTakes(1)))
    ensures var s := Exec(Init("D"), ls).sessions[0];
            && s.pending == map[m.body.messageId := 2]
            && s.timers == map[1 := Timer(m.body.messageId, Fired), 2 := Timer(m.body.messageId, Armed)]
  {
    var s: Session;
    hide Exec, IsRun, IsEchoFor;
    ls, s := FirstCopyAcked(m);
    var none: multiset<Message> := multiset{};
    assert multiset{m} - multiset{m} == none && none - none == none;
    ls, s := Forward(ls, s, multiset{m}, m);
    ls := Act1(ls, s, none, ConsumerInserts);
    var s' := After(s, "D", ConsumerInserts);
    assert Holds(Exec(Init("D"), ls), s', none);
    assert s'.timers == map[1 := Timer(m.body.messageId, Fired), 2 := Timer(m.body.messageId, Armed)];
  }
}
