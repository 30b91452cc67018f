/** What holds in every run of the delivery protocol, whatever the interleaving. */
module DeliveryTheorems {
  import opened Wrappers
  import opened Envelope
  import opened MultisetOfMap
  import opened Delivery
  import opened DeliveryInvariant
  import opened DeliverySteps

  // ---- The system invariant

  ghost function AllUnacked(ss: seq<Session>): multiset<Message> {
    if ss == [] then multiset{} else AllUnacked(ss[..|ss| - 1]) + Values<Tag, Message>(ss[|ss| - 1].unacked)
  }

  ghost function Messages(rs: seq<Removal>): multiset<Message> {
    if rs == [] then multiset{} else Messages(rs[..|rs| - 1]) + multiset{rs[|rs| - 1].msg}
  }

  /** Every message is in the queue, unacked on some channel, or removed; none is lost or doubled. */
  ghost predicate Conserved(y: System) {
    y.enqueued == y.ready + AllUnacked(y.sessions) + Messages(y.removed)
  }

  /** A removal for one of the four reasons for which the protocol may drop a message. */
  predicate Justified(y: System, r: Removal) {
    && r.session < |y.sessions|
    && match r.cause
       case BadBody => r.msg.body.Undecodable?
       case SourceEcho => !r.msg.body.Undecodable? && IsEchoFor(r.msg, y.deviceId)
       case Forwarded =>
         !r.msg.body.Undecodable? && !r.msg.body.Payload? && r.tag in y.sessions[r.session].written
       case ByReceipt(id) =>
         r.msg.body.Payload? && r.msg.body.messageId == id && id in y.receipts
         && r.tag in y.sessions[r.session].written
       case _ => false
  }

  ghost predicate SessionsInv(y: System) {
    forall sid :: 0 <= sid < |y.sessions| ==> SessionInv(y.sessions[sid], y.deviceId)
  }

  ghost predicate RemovalsInv(y: System) {
    AllJustified(y, y.removed)
  }

  ghost predicate AllJustified(y: System, rs: seq<Removal>) {
    forall i :: 0 <= i < |rs| ==> Justified(y, rs[i])
  }

  /** Readers and hands only work on receipts that have arrived. */
  ghost predicate ReceiptsInv(y: System) {
    && (forall k :: k in y.lookups ==> k.0 < |y.sessions| && k.1 in y.receipts)
    && AllFromReceipts(y.sessions, y.receipts)
  }

  ghost predicate AllFromReceipts(ss: seq<Session>, receipts: multiset<string>) {
    forall sid :: 0 <= sid < |ss| ==> HandsFromReceipts(ss[sid].hands, receipts)
  }

  ghost predicate HandsFromReceipts(hands: multiset<Settlement>, receipts: multiset<string>) {
    forall x :: x in hands && x.cause.ByReceipt? ==> x.cause.messageId in receipts
  }

  /** The clients map holds the one session that nothing has started to tear down. */
  ghost predicate CurrentInv(y: System) {
    LiveIsCurrent(y.sessions, y.current)
  }

  ghost predicate LiveIsCurrent(ss: seq<Session>, current: Option<nat>) {
    && (current.Some? ==> current.value < |ss|)
    && (forall sid :: 0 <= sid < |ss| ==> (ss[sid].stage == Live <==> current == Some(sid)))
  }

  ghost predicate SystemInv(y: System) {
    SessionsInv(y) && Conserved(y) && RemovalsInv(y) && ReceiptsInv(y) && CurrentInv(y)
  }

  // ---- Conservation

  lemma {:induction false} UpdateUnacked(ss: seq<Session>, i: nat, s: Session)
    requires i < |ss|
    ensures AllUnacked(ss[i := s]) + Values<Tag, Message>(ss[i].unacked) == AllUnacked(ss) + Values<Tag, Message>(s.unacked)
  {
    hide Values;
    var n, ss' := |ss| - 1, ss[i := s];
    var last := Values<Tag, Message>(ss[n].unacked);
    assert AllUnacked(ss') == AllUnacked(ss'[..n]) + Values<Tag, Message>(ss'[n].unacked);
    assert AllUnacked(ss) == AllUnacked(ss[..n]) + last;
    if i == n {
      assert ss'[..n] == ss[..n] && ss'[n] == s;
    } else {
      assert ss'[..n] == ss[..n][i := s] && ss'[n] == ss[n] && ss[..n][i] == ss[i];
      UpdateUnacked(ss[..n], i, s);
      AddBoth(AllUnacked(ss[..n]), Values<Tag, Message>(s.unacked),
              AllUnacked(ss'[..n]), Values<Tag, Message>(ss[i].unacked), last);
      hide AllUnacked;
    }
  }

  lemma AddBoth(a: multiset<Message>, b: multiset<Message>, c: multiset<Message>, d: multiset<Message>, more: multiset<Message>)
    requires a + b == c + d
    ensures (a + more) + b == (c + more) + d
  {
    assert (a + more) + b == (a + b) + more;
    assert (c + more) + d == (c + d) + more;
  }

  lemma MessagesAppend(rs: seq<Removal>, r: Removal)
    ensures Messages(rs + [r]) == Messages(rs) + multiset{r.msg}
  {
    assert (rs + [r])[..|rs|] == rs;
  }

  /** Swapping gone for come on a channel is balanced by the queue and the removals. */
  lemma Rebalance(enqueued: multiset<Message>,
                  ready: multiset<Message>, unacked: multiset<Message>, removed: multiset<Message>,
                  ready': multiset<Message>, unacked': multiset<Message>, removed': multiset<Message>,
                  gone: multiset<Message>, come: multiset<Message>)
    requires enqueued == ready + unacked + removed
    requires unacked' + gone == unacked + come
    requires ready' + removed' + come == ready + removed + gone
    ensures enqueued == ready' + unacked' + removed'
  {
    forall m: Message ensures enqueued[m] == (ready' + unacked' + removed')[m] {
      assert (unacked' + gone)[m] == (unacked + come)[m];
      assert (ready' + removed' + come)[m] == (ready + removed + gone)[m];
    }
  }

  /** Each step of a session balances what it takes from the queue, returns to it and removes. */
  lemma Balance(s: Session, dev: string, sid: nat, a: Act)
    requires SessionInv(s, dev) && Can(s, a)
    ensures Returned(s, a) + Messages(Removals(s, sid, a)) + Values<Tag, Message>(After(s, dev, a).unacked)
         == Pulled(a) + Values<Tag, Message>(s.unacked)
  {
    hide Messages, Values, Judge, Placed;
    NoMessages();
    match a {
      case BrokerPushes(m) =>
        FreshTag(s, dev);
        ValuesInsert<Tag, Message>(s.unacked, s.nextTag, m);
      case ConsumerSettles => SettlementBalance(s, sid, a);
      case HandSettles(x) => SettlementBalance(s, sid, a);
      case ClosesChannel => EmptyValues();
      case _ =>
    }
  }

  lemma SettlementBalance(s: Session, sid: nat, a: Act)
    requires Can(s, a) && (a.ConsumerSettles? || a.HandSettles?)
    ensures Returned(s, a) + Messages(Removals(s, sid, a)) + Values<Tag, Message>(After(s, "", a).unacked)
         == Values<Tag, Message>(s.unacked)
  {
    SettlementUnacks(s, a);
    OneWayOut(s, sid, a);
    hide Messages, Values, After, Returned, Removals;
    var x := Settled(s, a);
    if x.Some? {
      ValuesRemove<Tag, Message>(s.unacked, x.value.tag);
    }
    hide Settled;
  }

  /** A settled message is either returned or removed. */
  lemma OneWayOut(s: Session, sid: nat, a: Act)
    requires Can(s, a) && (a.ConsumerSettles? || a.HandSettles?)
    ensures var x := Settled(s, a);
            Returned(s, a) + Messages(Removals(s, sid, a)) == if x.Some? then multiset{s.unacked[x.value.tag]} else multiset{}
  {
    hide Messages;
    NoMessages();
    var x := Settled(s, a);
    if x.Some? {
      var r := Removal(sid, x.value.tag, s.unacked[x.value.tag], x.value.cause);
      MessagesAppend([], r);
      assert [] + [r] == [r];
    }
  }

  lemma SettlementUnacks(s: Session, a: Act)
    requires Can(s, a) && (a.ConsumerSettles? || a.HandSettles?)
    ensures var x := Settled(s, a);
            After(s, "", a).unacked == if x.Some? then s.unacked - {x.value.tag} else s.unacked
  {
  }

  lemma NoMessages()
    ensures Messages([]) == multiset{}
  {
  }

  lemma FreshTag(s: Session, dev: string)
    requires SessionInv(s, dev) && s.stage != Closed
    ensures s.nextTag !in s.unacked
  {
    var p :| Placed(s, dev, p);
    assert s.nextTag !in p;
  }

  lemma ConservedStep(y: System, l: Label)
    requires SystemInv(y) && Enabled(y, l)
    ensures Conserved(Step(y, l))
  {
    var y' := Step(y, l);
    hide SessionsInv, CurrentInv, RemovalsInv, ReceiptsInv, AllUnacked, Messages, Values, Returned, Removals;
    match l {
      case Publish(m) =>
        PublishBalance(y.ready, AllUnacked(y.sessions), Messages(y.removed), m);
      case ReceiptArrives(_) =>
      case Open => OpenConserves(y.sessions);
      case Detach =>
        var sid := y.current.value;
        UpdateUnacked(y.sessions, sid, y'.sessions[sid]);
        var kept := Values<Tag, Message>(y.sessions[sid].unacked);
        Rebalance(y.enqueued, y.ready, AllUnacked(y.sessions), Messages(y.removed),
                  y.ready, AllUnacked(y'.sessions), Messages(y.removed), kept, kept);
      case Do(sid, a) =>
        hide Conserved, Step;
        DoConserves(y, sid, a);
    }
  }

  lemma PublishBalance(ready: multiset<Message>, unacked: multiset<Message>, removed: multiset<Message>, m: Message)
    ensures (ready + unacked + removed) + multiset{m} == (ready + multiset{m}) + unacked + removed
  {
  }

  lemma DoConserves(y: System, sid: nat, a: Act)
    requires SessionsInv(y) && Conserved(y) && Enabled(y, Do(sid, a))
    ensures Conserved(Step(y, Do(sid, a)))
  {
    hide AllUnacked, Messages, Values, Returned, Removals, SessionInv, After, Can;
    var s := y.sessions[sid];
    var s', rs := After(s, y.deviceId, a), Removals(s, sid, a);
    assert |rs| <= 1 by { RemovalsShort(s, sid, a); }
    Balance(s, y.deviceId, sid, a);
    MessagesConcat(y.removed, rs);
    UpdateUnacked(y.sessions, sid, s');
    Rebalance(y.enqueued, y.ready, AllUnacked(y.sessions), Messages(y.removed),
              y.ready - Pulled(a) + Returned(s, a), AllUnacked(y.sessions[sid := s']), Messages(y.removed + rs),
              Values<Tag, Message>(s.unacked), Values<Tag, Message>(s'.unacked))
      by {
        Reorder(y.ready, Pulled(a), Returned(s, a), Messages(y.removed), Messages(rs),
                Values<Tag, Message>(s.unacked), Values<Tag, Message>(s'.unacked));
      }
  }

  lemma Reorder(ready: multiset<Message>, pulled: multiset<Message>, returned: multiset<Message>,
                removed: multiset<Message>, more: multiset<Message>, gone: multiset<Message>, come: multiset<Message>)
    requires pulled <= ready && returned + more + come == pulled + gone
    ensures (ready - pulled + returned) + (removed + more) + come == ready + removed + gone
  {
    forall m: Message
      ensures ((ready - pulled + returned) + (removed + more) + come)[m] == (ready + removed + gone)[m]
    {
      assert (returned + more + come)[m] == (pulled + gone)[m];
    }
  }

  lemma RemovalsShort(s: Session, sid: nat, a: Act)
    requires Can(s, a)
    ensures |Removals(s, sid, a)| <= 1
  {
  }

  lemma MessagesConcat(rs: seq<Removal>, more: seq<Removal>)
    requires |more| <= 1
    ensures Messages(rs + more) == Messages(rs) + Messages(more)
  {
    hide Messages;
    NoMessages();
    if more == [] {
      assert rs + more == rs;
    } else {
      assert more == [more[0]] && [] + more == more;
      MessagesAppend(rs, more[0]);
      MessagesAppend([], more[0]);
    }
  }

  lemma EmptyValues()
    ensures Values<Tag, Message>(map[]) == multiset{}
  {
  }

  lemma OpenConserves(ss: seq<Session>)
    ensures AllUnacked(ss + [NEW_SESSION]) == AllUnacked(ss)
  {
    assert (ss + [NEW_SESSION])[..|ss|] == ss;
    EmptyValues();
  }

  // ---- Removals and receipts

  /** History only grows. */
  ghost predicate Extends(y: System, y': System) {
    && y'.deviceId == y.deviceId && y.receipts <= y'.receipts && |y.sessions| <= |y'.sessions|
    && AllGrow(y.sessions, y'.sessions)
  }

  ghost predicate AllGrow(ss: seq<Session>, ss': seq<Session>)
    requires |ss| <= |ss'|
  {
    forall sid :: 0 <= sid < |ss| ==> Grows(ss[sid], ss'[sid])
  }

  predicate Grows(s: Session, s': Session) {
    s.written <= s'.written && s.overwritten <= s'.overwritten
  }

  lemma AfterGrows(s: Session, dev: string, a: Act)
    requires Can(s, a)
    ensures Grows(s, After(s, dev, a))
  {
    hide Judge;
    if a.ConsumerSettles? || a.HandSettles? {
      SettleGrows(s, if a.HandSettles? then a.settlement.tag else s.consumer.settlement.tag);
    }
    hide SettleTag;
  }

  lemma SettleGrows(s: Session, t: Tag)
    ensures Grows(s, SettleTag(s, t))
  {
  }

  lemma SetGrows(ss: seq<Session>, i: nat, s: Session)
    requires i < |ss| && Grows(ss[i], s)
    ensures AllGrow(ss, ss[i := s])
  {
  }

  lemma OpenGrows(ss: seq<Session>)
    ensures AllGrow(ss, ss) && AllGrow(ss, ss + [NEW_SESSION])
  {
  }

  lemma StepExtends(y: System, l: Label)
    requires Enabled(y, l)
    ensures Extends(y, Step(y, l))
  {
    OpenGrows(y.sessions);
    match l {
      case Do(sid, a) =>
        AfterGrows(y.sessions[sid], y.deviceId, a);
        SetGrows(y.sessions, sid, After(y.sessions[sid], y.deviceId, a));
      case Detach =>
        SetGrows(y.sessions, y.current.value, y.sessions[y.current.value].(stage := Stage.Detached));
      case _ =>
    }
    hide AllGrow, After, Can, Returned, Removals;
  }

  lemma JustifiedExtends(y: System, y': System, r: Removal)
    requires Extends(y, y') && Justified(y, r)
    ensures Justified(y', r)
  {
    hide IsEchoFor;
  }

  lemma AllStayJustified(y: System, y': System, rs: seq<Removal>)
    requires Extends(y, y') && AllJustified(y, rs)
    ensures AllJustified(y', rs)
  {
    forall i | 0 <= i < |rs| ensures Justified(y', rs[i]) {
      JustifiedExtends(y, y', rs[i]);
    }
    hide Extends, Justified;
  }

  lemma JustifiedConcat(y: System, a: seq<Removal>, b: seq<Removal>)
    requires AllJustified(y, a) && AllJustified(y, b)
    ensures AllJustified(y, a + b)
  {
    hide Justified;
  }

  lemma RemovalsStep(y: System, l: Label)
    requires SystemInv(y) && Enabled(y, l)
    ensures RemovalsInv(Step(y, l))
  {
    StepExtends(y, l);
    AllStayJustified(y, Step(y, l), y.removed);
    hide Extends;
    if l.Do? {
      NewRemovals(y, l.sid, l.act);
      StepExtends(y, l);
      AllStayJustified(y, Step(y, l), Removals(y.sessions[l.sid], l.sid, l.act));
      JustifiedConcat(Step(y, l), y.removed, Removals(y.sessions[l.sid], l.sid, l.act));
    }
    hide AllJustified, SessionsInv, Conserved, CurrentInv, ReceiptsInv, Removals, Returned, After, Can;
  }

  /** The removal of a settlement has a reason that the settling actor had checked. */
  lemma NewRemovals(y: System, sid: nat, a: Act)
    requires SystemInv(y) && Enabled(y, Do(sid, a))
    ensures AllJustified(y, Removals(y.sessions[sid], sid, a))
  {
    hide Conserved, CurrentInv, RemovalsInv, ReceiptsInv, Justified;
    var s := y.sessions[sid];
    assert SessionInv(s, y.deviceId);
    hide SessionsInv, SessionInv;
    match a {
      case ConsumerSettles => ConsumerRemoval(y, sid);
      case HandSettles(x) => HandRemoval(y, sid, x);
      case _ =>
    }
  }

  lemma ConsumerRemoval(y: System, sid: nat)
    requires Enabled(y, Do(sid, ConsumerSettles)) && SessionInv(y.sessions[sid], y.deviceId)
    ensures var rs := Removals(y.sessions[sid], sid, ConsumerSettles);
            rs == [] || (|rs| == 1 && Justified(y, rs[0]))
  {
    hide PendingInv, HandsInv, BufferInv, LostInv, IsEchoFor, HistoryInv;
    var s := y.sessions[sid];
    if s.stage != Closed {
      var p :| Placed(s, y.deviceId, p);
    }
  }

  lemma HandRemoval(y: System, sid: nat, x: Settlement)
    requires Enabled(y, Do(sid, HandSettles(x))) && SessionInv(y.sessions[sid], y.deviceId) && ReceiptsInv(y)
    ensures var rs := Removals(y.sessions[sid], sid, HandSettles(x));
            rs == [] || (|rs| == 1 && Justified(y, rs[0]))
  {
    hide ConsumerInv, PendingInv, BufferInv, LostInv, IsEchoFor, HistoryInv;
    var s := y.sessions[sid];
    if s.stage != Closed {
      var p :| Placed(s, y.deviceId, p);
    }
  }

  lemma SettleHands(s: Session, t: Tag)
    ensures SettleTag(s, t).hands == s.hands && SettleTag(s, t).stage == s.stage
  {
  }

  lemma AfterHands(s: Session, dev: string, a: Act, x: Settlement)
    requires Can(s, a) && x in After(s, dev, a).hands && x !in s.hands && x.cause.ByReceipt?
    ensures a.ReceiptTakes? && a.messageId == x.cause.messageId
  {
    hide Judge, StopTimer;
    if a.ConsumerSettles? || a.HandSettles? {
      SettleHands(s, if a.HandSettles? then a.settlement.tag else s.consumer.settlement.tag);
    }
    hide SettleTag;
  }

  lemma ActReceipts(s: Session, dev: string, a: Act, receipts: multiset<string>)
    requires Can(s, a) && HandsFromReceipts(s.hands, receipts)
    requires a.ReceiptTakes? ==> a.messageId in receipts
    ensures HandsFromReceipts(After(s, dev, a).hands, receipts)
  {
    forall x | x in After(s, dev, a).hands && x.cause.ByReceipt? && x !in s.hands ensures x.cause.messageId in receipts {
      AfterHands(s, dev, a, x);
    }
    hide After, Can;
  }

  lemma ReceiptsGrow(ss: seq<Session>, receipts: multiset<string>, id: string)
    requires AllFromReceipts(ss, receipts)
    ensures AllFromReceipts(ss, receipts + multiset{id})
  {
  }

  lemma SetFromReceipts(ss: seq<Session>, i: nat, s: Session, receipts: multiset<string>)
    requires AllFromReceipts(ss, receipts) && i < |ss| && HandsFromReceipts(s.hands, receipts)
    ensures AllFromReceipts(ss[i := s], receipts)
  {
  }

  lemma OpenFromReceipts(ss: seq<Session>, receipts: multiset<string>)
    requires AllFromReceipts(ss, receipts)
    ensures AllFromReceipts(ss + [NEW_SESSION], receipts)
  {
  }

  lemma HandsStep(y: System, l: Label)
    requires ReceiptsInv(y) && Enabled(y, l)
    ensures AllFromReceipts(Step(y, l).sessions, Step(y, l).receipts)
  {
    match l {
      case Do(sid, a) =>
        var s := y.sessions[sid];
        assert a.ReceiptTakes? ==> (sid, a.messageId) in y.lookups;
        ActReceipts(s, y.deviceId, a, y.receipts);
        SetFromReceipts(y.sessions, sid, After(s, y.deviceId, a), y.receipts);
      case Detach =>
        var sid := y.current.value;
        SetFromReceipts(y.sessions, sid, y.sessions[sid].(stage := Stage.Detached), y.receipts);
      case Open => OpenFromReceipts(y.sessions, y.receipts);
      case ReceiptArrives(id) => ReceiptsGrow(y.sessions, y.receipts, id);
      case _ =>
    }
    hide After, Can, Returned, Removals, AllFromReceipts, HandsFromReceipts;
  }

  lemma ReceiptsStep(y: System, l: Label)
    requires ReceiptsInv(y) && CurrentInv(y) && Enabled(y, l)
    ensures ReceiptsInv(Step(y, l))
  {
    HandsStep(y, l);
    hide After, Can, Returned, Removals, AllFromReceipts;
  }

  lemma CurrentStep(y: System, l: Label)
    requires CurrentInv(y) && Enabled(y, l)
    ensures CurrentInv(Step(y, l))
  {
    if l.Do? {
      AfterStage(y.sessions[l.sid], y.deviceId, l.act);
      SetLive(y.sessions, l.sid, After(y.sessions[l.sid], y.deviceId, l.act), y.current);
      hide LiveIsCurrent;
    }
    hide After, Can, Returned, Removals;
  }

  lemma SetLive(ss: seq<Session>, i: nat, s: Session, current: Option<nat>)
    requires LiveIsCurrent(ss, current) && i < |ss| && (s.stage == Live <==> ss[i].stage == Live)
    ensures LiveIsCurrent(ss[i := s], current)
  {
  }

  lemma AfterStage(s: Session, dev: string, a: Act)
    requires Can(s, a)
    ensures After(s, dev, a).stage == Live <==> s.stage == Live
  {
    if a.ConsumerSettles? || a.HandSettles? {
      SettleHands(s, if a.HandSettles? then a.settlement.tag else s.consumer.settlement.tag);
    }
    hide Judge, SettleTag;
  }

  lemma SessionsStep(y: System, l: Label)
    requires SessionsInv(y) && CurrentInv(y) && Enabled(y, l)
    ensures SessionsInv(Step(y, l))
  {
    hide SessionInv, After, Returned, Removals, Can;
    match l
    case Publish(_) =>
    case ReceiptArrives(_) =>
    case Open => NewSessionInv(y.deviceId);
    case Detach => StageInv(y.sessions[y.current.value], y.deviceId, Stage.Detached);
    case Do(sid, a) => SessionStep(y.sessions[sid], y.deviceId, a);
  }

  lemma StepKeeps(y: System, l: Label)
    requires SystemInv(y) && Enabled(y, l)
    ensures SystemInv(Step(y, l))
  {
    SessionsStep(y, l);
    ConservedStep(y, l);
    RemovalsStep(y, l);
    ReceiptsStep(y, l);
    CurrentStep(y, l);
  }

  lemma {:induction false} RunKeeps(y: System, ls: seq<Label>)
    requires SystemInv(y) && IsRun(y, ls)
    ensures SystemInv(Exec(y, ls))
    decreases |ls|
  {
    if ls != [] {
      StepKeeps(y, ls[0]);
      RunKeeps(Step(y, ls[0]), ls[1..]);
    }
  }

  lemma Reachable(dev: string, ls: seq<Label>)
    requires IsRun(Init(dev), ls)
    ensures SystemInv(Exec(Init(dev), ls))
  {
    RunKeeps(Init(dev), ls);
  }
}
