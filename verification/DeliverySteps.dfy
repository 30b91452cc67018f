/** Each step of a session keeps SessionInv, whether its channel is open or already closed. */
module DeliverySteps {
  import opened Envelope
  import opened Delivery
  import opened DeliveryInvariant

  lemma NewSessionInv(dev: string)
    ensures SessionInv(NEW_SESSION, dev)
  {
    var p: Places := map[];
    assert Placed(NEW_SESSION, dev, p);
  }

  lemma TagsAreOld(s: Session, dev: string, p: Places)
    requires Placed(s, dev, p)
    ensures forall t :: t in s.unacked ==> t < s.nextTag
  {
    hide BufferInv, ConsumerInv, PendingInv, HandsInv, LostInv, WrittenInv;
    forall t | t in s.unacked ensures t < s.nextTag {
      assert t in p;
    }
  }

  lemma PushHistory(s: Session, m: Message)
    requires HistoryInv(s) && s.stage != Closed && forall t :: t in s.unacked ==> t < s.nextTag
    ensures HistoryInv(Push(s, m))
  {
  }

  lemma PushInv(s: Session, dev: string, m: Message)
    requires SessionInv(s, dev) && s.stage != Closed
    ensures SessionInv(Push(s, m), dev)
  {
    hide Placed, HistoryInv, Push;
    var p :| Placed(s, dev, p);
    PushKeeps(s, dev, m, p);
    TagsAreOld(s, dev, p);
    PushHistory(s, m);
    assert Placed(Push(s, m), dev, p[s.nextTag := Buffered]);
  }

  lemma TakeInv(s: Session, dev: string)
    requires SessionInv(s, dev) && s.consumer.Idle? && s.buffer != []
    ensures SessionInv(Take(s), dev)
  {
    hide Placed;
    if s.stage != Closed {
      var p :| Placed(s, dev, p);
      TakeKeeps(s, dev, p);
      assert Placed(Take(s), dev, p[s.buffer[0].tag := AtConsumer]);
    }
  }

  lemma HandleInv(s: Session, dev: string, writes: seq<bool>)
    requires SessionInv(s, dev) && s.consumer.Handling?
    ensures SessionInv(Handle(s, dev, writes), dev)
  {
    hide Placed, Judge;
    if s.stage != Closed {
      var p :| Placed(s, dev, p);
      HandleKeeps(s, dev, writes, p);
      assert Placed(Handle(s, dev, writes), dev, p);
    }
  }

  lemma SettledGrows(settled: seq<Tag>, u: Unacked, nextTag: Tag, tag: Tag)
    requires SettledOnce(settled, u, nextTag) && tag in u && tag < nextTag
    ensures SettledOnce(settled + [tag], u - {tag}, nextTag)
  {
  }

  lemma SettleByConsumerInv(s: Session, dev: string)
    requires SessionInv(s, dev) && s.consumer.Settling?
    ensures SessionInv(SettleByConsumer(s), dev)
    ensures s.stage != Closed ==> s.consumer.settlement.tag in s.unacked
  {
    if s.stage != Closed {
      var p :| Placed(s, dev, p);
      hide BufferInv, ConsumerInv, PendingInv, HandsInv, LostInv, WrittenInv, SettledOnce;
      SettleByConsumerKeeps(s, dev, p);
      assert s.consumer.settlement.tag in p;
      hide Placed;
      SettledGrows(s.settled, s.unacked, s.nextTag, s.consumer.settlement.tag);
      assert HistoryInv(SettleByConsumer(s));
      hide HistoryInv, SettleByConsumer;
      assert Placed(SettleByConsumer(s), dev, p - {s.consumer.settlement.tag});
    }
  }

  lemma InsertInv(s: Session, dev: string)
    requires SessionInv(s, dev) && s.consumer.Inserting? && PendingOpen(s)
    ensures SessionInv(Insert(s), dev)
  {
    hide Placed;
    var p :| Placed(s, dev, p);
    InsertKeeps(s, dev, p);
    assert Placed(Insert(s), dev, PlaceAfterInsert(s, p));
  }

  lemma FireInv(s: Session, dev: string, timer: Tag)
    requires SessionInv(s, dev) && timer in s.timers && s.timers[timer].state == Armed
    ensures SessionInv(Fire(s, timer), dev)
  {
    hide Placed;
    if s.stage != Closed {
      var p :| Placed(s, dev, p);
      FireKeeps(s, dev, timer, p);
      assert Placed(Fire(s, timer), dev, p);
    }
  }

  lemma TakeByTimerInv(s: Session, dev: string, timer: Tag)
    requires SessionInv(s, dev) && timer in s.timers && s.timers[timer].state == Fired
    ensures SessionInv(TakeByTimer(s, timer), dev)
  {
    hide Placed;
    if s.stage != Closed {
      var p :| Placed(s, dev, p);
      TakeByTimerKeeps(s, dev, timer, p);
    }
  }

  lemma TakeByReceiptInv(s: Session, dev: string, id: string)
    requires SessionInv(s, dev)
    ensures SessionInv(TakeByReceipt(s, id), dev)
  {
    hide Placed;
    if s.stage != Closed {
      var p :| Placed(s, dev, p);
      TakeByReceiptKeeps(s, dev, id, p);
    }
  }

  lemma SettleInHandInv(s: Session, dev: string, x: Settlement)
    requires SessionInv(s, dev) && x in s.hands
    ensures SessionInv(SettleInHand(s, x), dev)
    ensures s.stage != Closed ==> x.tag in s.unacked
  {
    if s.stage != Closed {
      var p :| Placed(s, dev, p);
      hide BufferInv, ConsumerInv, PendingInv, HandsInv, LostInv, WrittenInv, SettledOnce;
      SettleInHandKeeps(s, dev, x, p);
      assert x.tag in p;
      hide Placed;
      SettledGrows(s.settled, s.unacked, s.nextTag, x.tag);
      assert HistoryInv(SettleInHand(s, x));
      hide HistoryInv, SettleInHand;
      assert Placed(SettleInHand(s, x), dev, p - {x.tag});
    }
  }

  lemma ClearPendingInv(s: Session, dev: string)
    requires SessionInv(s, dev) && s.stage == Cancelled
    ensures SessionInv(ClearPending(s), dev)
  {
    hide Placed;
    var p :| Placed(s, dev, p);
    ClearPendingKeeps(s, dev, p);
    assert Placed(ClearPending(s), dev, PlaceAfterClear(p));
  }

  lemma CloseChannelInv(s: Session, dev: string)
    requires SessionInv(s, dev) && s.stage == MapCleared
    ensures SessionInv(CloseChannel(s), dev)
  {
    hide Placed;
  }

  lemma StageInv(s: Session, dev: string, stage: Stage)
    requires SessionInv(s, dev) && stage in {Detached, Cancelled} && PendingOpen(s)
    ensures SessionInv(s.(stage := stage), dev)
  {
    assert HistoryInv(s.(stage := stage));
    hide HistoryInv, BufferInv, ConsumerInv, PendingInv, HandsInv, LostInv, WrittenInv;
    var p :| Placed(s, dev, p);
    assert Placed(s.(stage := stage), dev, p);
  }

  lemma ExitInv(s: Session, dev: string)
    requires SessionInv(s, dev) && s.consumer.Idle?
    ensures SessionInv(s.(consumer := Exited), dev)
  {
    hide BufferInv, PendingInv, HandsInv, LostInv, WrittenInv;
    if s.stage != Closed {
      var p :| Placed(s, dev, p);
      assert Placed(s.(consumer := Exited), dev, p);
    }
  }

  /** Whatever an actor does to its session, the invariant stays. */
  lemma SessionStep(s: Session, dev: string, a: Act)
    requires SessionInv(s, dev) && Can(s, a)
    ensures SessionInv(After(s, dev, a), dev)
  {
    hide SessionInv, Handle, Push, Take, SettleByConsumer, Insert, Fire, TakeByTimer, TakeByReceipt,
         SettleInHand, ClearPending, CloseChannel;
    match a
    case BrokerPushes(m) => PushInv(s, dev, m);
    case ConsumerTakes => TakeInv(s, dev);
    case ConsumerHandles(writes) => HandleInv(s, dev, writes);
    case ConsumerSettles => SettleByConsumerInv(s, dev);
    case ConsumerInserts => InsertInv(s, dev);
    case ConsumerExits => ExitInv(s, dev);
    case ReceiptTakes(id) => TakeByReceiptInv(s, dev, id);
    case TimerFires(t) => FireInv(s, dev, t);
    case TimerTakes(t) => TakeByTimerInv(s, dev, t);
    case HandSettles(x) => SettleInHandInv(s, dev, x);
    case CancelsConsumer => StageInv(s, dev, Cancelled);
    case ClearsPending => ClearPendingInv(s, dev);
    case ClosesChannel => CloseChannelInv(s, dev);
  }
}
