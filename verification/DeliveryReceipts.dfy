/** One receipt acknowledges at most one delivery. */
module DeliveryReceipts {
  import opened Wrappers
  import opened Envelope
  import opened Delivery
  import opened DeliveryInvariant
  import opened DeliveryTheorems

  /** How many messages were removed on a receipt for the id. */
  function RemovedBy(rs: seq<Removal>, id: string): nat {
    if rs == [] then 0 else RemovedBy(rs[..|rs| - 1], id) + One(rs[|rs| - 1].cause == ByReceipt(id))
  }

  /** The settlements that readers of such a receipt hold. */
  function Held(hands: multiset<Settlement>, id: string): set<Settlement> {
    set x | x in hands && x.cause == ByReceipt(id)
  }

  function HeldBy(ss: seq<Session>, id: string): nat {
    if ss == [] then 0 else HeldBy(ss[..|ss| - 1], id) + |Held(ss[|ss| - 1].hands, id)|
  }

  /** The readers of such a receipt that still look for their entry, in the first n sessions. */
  function LookingFor(lookups: multiset<(nat, string)>, n: nat, id: string): nat {
    if n == 0 then 0 else LookingFor(lookups, n - 1, id) + lookups[(n - 1, id)]
  }

  /** Everything that a receipt for the id has brought about, or still may. */
  function Uses(y: System, id: string): nat {
    RemovedBy(y.removed, id) + HeldBy(y.sessions, id) + LookingFor(y.lookups, |y.sessions|, id)
  }

  // ---- Sums

  lemma {:induction false} RemovedByConcat(a: seq<Removal>, b: seq<Removal>, id: string)
    ensures RemovedBy(a + b, id) == RemovedBy(a, id) + RemovedBy(b, id)
  {
    if b == [] {
      assert a + b == a;
    } else {
      assert (a + b)[..|a + b| - 1] == a + b[..|b| - 1];
      RemovedByConcat(a, b[..|b| - 1], id);
    }
  }

  lemma {:induction false} HeldBySet(ss: seq<Session>, i: nat, s: Session, id: string)
    requires i < |ss|
    ensures HeldBy(ss[i := s], id) + |Held(ss[i].hands, id)| == HeldBy(ss, id) + |Held(s.hands, id)|
  {
    hide Held;
    var n, ss' := |ss| - 1, ss[i := s];
    if i == n {
      assert ss'[..n] == ss[..n];
    } else {
      HeldBySet(ss[..n], i, s, id);
      assert ss'[..n] == ss[..n][i := s];
    }
  }

  lemma HeldByOpen(ss: seq<Session>, id: string)
    ensures HeldBy(ss + [NEW_SESSION], id) == HeldBy(ss, id)
  {
    assert (ss + [NEW_SESSION])[..|ss|] == ss;
    assert Held(NEW_SESSION.hands, id) == {};
  }

  lemma {:induction false} LookingMore(lookups: multiset<(nat, string)>, n: nat, r: (nat, string), id: string)
    ensures LookingFor(lookups + multiset{r}, n, id) == LookingFor(lookups, n, id) + One(r.0 < n && r.1 == id)
  {
    if n > 0 {
      LookingMore(lookups, n - 1, r, id);
    }
  }

  lemma LookingLess(lookups: multiset<(nat, string)>, n: nat, r: (nat, string), id: string)
    requires r in lookups
    ensures LookingFor(lookups - multiset{r}, n, id) + One(r.0 < n && r.1 == id) == LookingFor(lookups, n, id)
  {
    LookingMore(lookups - multiset{r}, n, r, id);
    assert lookups - multiset{r} + multiset{r} == lookups;
  }

  // ---- Steps

  lemma TakesOne(hands: multiset<Settlement>, x: Settlement, id: string)
    ensures |Held(hands + multiset{x}, id)| <= |Held(hands, id)| + One(x.cause == ByReceipt(id))
  {
    var more := Held(hands + multiset{x}, id);
    if x.cause == ByReceipt(id) {
      assert more == Held(hands, id) + {x};
    } else {
      assert more == Held(hands, id);
    }
  }

  lemma GivesOne(hands: multiset<Settlement>, x: Settlement, id: string)
    requires x in hands
    ensures |Held(hands - multiset{x}, id)| <= |Held(hands, id)|
    ensures hands[x] == 1 && x.cause == ByReceipt(id) ==> |Held(hands - multiset{x}, id)| + 1 == |Held(hands, id)|
  {
    var less := Held(hands - multiset{x}, id);
    if hands[x] == 1 {
      assert less == Held(hands, id) - {x};
    } else {
      assert less == Held(hands, id);
    }
  }

  lemma HandIsSingle(s: Session, dev: string, x: Settlement)
    requires SessionInv(s, dev) && s.stage != Closed && x in s.hands
    ensures s.hands[x] == 1
  {
    var p :| Placed(s, dev, p);
    hide BufferInv, ConsumerInv, PendingInv, LostInv, WrittenInv;
  }

  lemma VerdictHasNoReceipt(dev: string, m: Message, c: Cause, written: bool)
    requires VerdictCause(dev, m, c, written)
    ensures !c.ByReceipt?
  {
    hide IsEchoFor;
  }

  lemma ConsumerHasNoReceipt(s: Session, dev: string)
    requires SessionInv(s, dev) && s.stage != Closed && s.consumer.Settling?
    ensures !s.consumer.settlement.cause.ByReceipt?
  {
    hide HistoryInv, BufferInv, PendingInv, HandsInv, LostInv, WrittenInv, VerdictCause;
    var p :| Placed(s, dev, p);
    var x := s.consumer.settlement;
    VerdictHasNoReceipt(dev, s.unacked[x.tag], x.cause, x.tag in s.written);
  }

  lemma RemovalOfHand(s: Session, sid: nat, x: Settlement, id: string)
    requires x in s.hands
    ensures RemovedBy(Removals(s, sid, HandSettles(x)), id) <= One(s.stage != Closed && x.cause == ByReceipt(id))
  {
    var rs := Removals(s, sid, HandSettles(x));
    assert rs == [] || (|rs| == 1 && rs[0].cause == x.cause && rs[..0] == [] && s.stage != Closed);
  }

  lemma SettleUses(s: Session, dev: string, sid: nat, x: Settlement, id: string)
    requires SessionInv(s, dev) && x in s.hands
    ensures RemovedBy(Removals(s, sid, HandSettles(x)), id) + |Held(s.hands - multiset{x}, id)| <= |Held(s.hands, id)|
  {
    GivesOne(s.hands, x, id);
    RemovalOfHand(s, sid, x, id);
    if s.stage != Closed {
      HandIsSingle(s, dev, x);
    }
    hide Held, SessionInv, Removals, RemovedBy;
  }

  lemma OtherActsHold(s: Session, dev: string, a: Act)
    requires Can(s, a) && !a.ReceiptTakes? && !a.TimerTakes? && !a.HandSettles?
    ensures After(s, dev, a).hands == s.hands
  {
    if a.ConsumerSettles? {
      SettleHands(s, s.consumer.settlement.tag);
    }
    hide SettleTag, Judge;
  }

  lemma ActUses(s: Session, dev: string, sid: nat, a: Act, id: string)
    requires SessionInv(s, dev) && Can(s, a)
    ensures RemovedBy(Removals(s, sid, a), id) + |Held(After(s, dev, a).hands, id)|
         <= |Held(s.hands, id)| + One(a.ReceiptTakes? && a.messageId == id)
  {
    match a {
      case HandSettles(x) =>
        SettleUses(s, dev, sid, x, id);
        SettleHands(s, x.tag);
      case ReceiptTakes(r) =>
        if r in s.pending {
          TakesOne(s.hands, Settlement(s.pending[r], ByReceipt(r)), id);
        }
      case TimerTakes(t) =>
        var r := s.timers[t].messageId;
        if r in s.pending {
          TakesOne(s.hands, Settlement(s.pending[r], ByTimeout(r)), id);
        }
      case ConsumerSettles =>
        OtherActsHold(s, dev, a);
        if s.stage != Closed {
          ConsumerHasNoReceipt(s, dev);
        }
        var rs := Removals(s, sid, a);
        assert rs == [] || (|rs| == 1 && rs[0].cause == s.consumer.settlement.cause && rs[..0] == [] && s.stage != Closed);
        hide After;
      case _ =>
        OtherActsHold(s, dev, a);
        assert Removals(s, sid, a) == [];
        hide After;
    }
    hide Held, SessionInv, SettleTag, StopTimer;
  }

  lemma DoUses(y: System, sid: nat, a: Act, id: string)
    requires SystemInv(y) && Enabled(y, Do(sid, a))
    ensures Uses(Step(y, Do(sid, a)), id) <= Uses(y, id)
  {
    var s := y.sessions[sid];
    var s' := After(s, y.deviceId, a);
    ActUses(s, y.deviceId, sid, a, id);
    HeldBySet(y.sessions, sid, s', id);
    RemovedByConcat(y.removed, Removals(s, sid, a), id);
    if a.ReceiptTakes? {
      LookingLess(y.lookups, |y.sessions|, (sid, a.messageId), id);
    }
    hide SystemInv, After, Can, Returned, Removals, Held, HeldBy, LookingFor, RemovedBy;
  }

  lemma StepUses(y: System, l: Label, id: string)
    requires SystemInv(y) && Enabled(y, l)
    ensures Uses(Step(y, l), id) <= Uses(y, id) + One(l.ReceiptArrives? && l.messageId == id)
  {
    match l {
      case Do(sid, a) =>
        DoUses(y, sid, a, id);
        hide Uses, Step;
      case Open =>
        HeldByOpen(y.sessions, id);
        assert (|y.sessions|, id) !in y.lookups;
        hide HeldBy;
      case Detach =>
        var sid := y.current.value;
        HeldBySet(y.sessions, sid, y.sessions[sid].(stage := Stage.Detached), id);
        hide HeldBy, LookingFor;
      case ReceiptArrives(r) =>
        if y.current.Some? {
          LookingMore(y.lookups, |y.sessions|, (y.current.value, r), id);
        }
        hide LookingFor, HeldBy;
      case _ =>
    }
    hide SystemInv, Held, RemovedBy;
  }

  lemma {:induction false} RunUses(y: System, ls: seq<Label>, id: string)
    requires SystemInv(y) && IsRun(y, ls) && Uses(y, id) <= y.receipts[id]
    ensures Uses(Exec(y, ls), id) <= Exec(y, ls).receipts[id]
    decreases |ls|
  {
    if ls != [] {
      StepUses(y, ls[0], id);
      StepKeeps(y, ls[0]);
      assert Step(y, ls[0]).receipts[id] == y.receipts[id] + One(ls[0].ReceiptArrives? && ls[0].messageId == id);
      hide SystemInv, Uses, Step, Enabled;
      RunUses(Step(y, ls[0]), ls[1..], id);
    }
  }

  /**
   In every run the removals on receipts for an id, the settlements in hand for such receipts and their
   readers still on the way are together no more than the receipts that arrived for it.
   */
  lemma ReceiptsAreUsedOnce(dev: string, ls: seq<Label>, id: string)
    requires IsRun(Init(dev), ls)
    ensures Uses(Exec(Init(dev), ls), id) <= Exec(Init(dev), ls).receipts[id]
  {
    Reachable(dev, []);
    RunUses(Init(dev), ls, id);
  }
}
