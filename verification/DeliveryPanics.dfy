/** Exactly which runs bring the consumer to a map that cleanup has already dropped. */
module DeliveryPanics {
  import opened Delivery
  import opened DeliveryTheorems

  /** The next thing the consumer does is to store into a nil map. */
  predicate Doomed(s: Session) {
    s.consumer.Inserting? && !PendingOpen(s)
  }

  /** Cleanup drops the map under an insertion, or a payload is judged after the map was dropped. */
  predicate Endangers(s: Session, dev: string, a: Act)
    requires Can(s, a)
  {
    || (a.ClearsPending? && s.consumer.Inserting?)
    || (a.ConsumerHandles? && !PendingOpen(s) && Judge(dev, s.consumer.delivery.msg, a.writes).Await?)
  }

  lemma SettlingSpares(s: Session, t: Tag)
    ensures SettleTag(s, t).stage == s.stage && SettleTag(s, t).consumer == s.consumer
  {
  }

  lemma ActDooms(s: Session, dev: string, a: Act)
    requires Can(s, a)
    ensures Doomed(After(s, dev, a)) <==> Doomed(s) || Endangers(s, dev, a)
  {
    if a.ConsumerSettles? || a.HandSettles? {
      SettlingSpares(s, if a.HandSettles? then a.settlement.tag else s.consumer.settlement.tag);
    }
    hide Judge, SettleTag, StopTimer;
  }

  ghost predicate AnyDoomed(ss: seq<Session>) {
    exists sid :: 0 <= sid < |ss| && Doomed(ss[sid])
  }

  predicate StepEndangers(y: System, l: Label)
    requires Enabled(y, l)
  {
    l.Do? && Endangers(y.sessions[l.sid], y.deviceId, l.act)
  }

  ghost predicate EndangeredRun(y: System, ls: seq<Label>)
    requires IsRun(y, ls)
    decreases |ls|
  {
    ls != [] && (StepEndangers(y, ls[0]) || EndangeredRun(Step(y, ls[0]), ls[1..]))
  }

  lemma SetDoomed(ss: seq<Session>, i: nat, s: Session, endangered: bool)
    requires i < |ss| && (Doomed(s) <==> Doomed(ss[i]) || endangered)
    ensures AnyDoomed(ss[i := s]) <==> AnyDoomed(ss) || endangered
  {
    var ss' := ss[i := s];
    assert Doomed(ss'[i]) == Doomed(s);
    hide Doomed;
    if sid :| 0 <= sid < |ss| && Doomed(ss[sid]) {
      assert Doomed(ss'[sid]);
    }
    if sid :| 0 <= sid < |ss'| && Doomed(ss'[sid]) {
      assert sid == i || ss[sid] == ss'[sid];
    }
  }

  lemma OpenDoomed(ss: seq<Session>)
    ensures AnyDoomed(ss + [NEW_SESSION]) <==> AnyDoomed(ss)
  {
    var ss' := ss + [NEW_SESSION];
    assert !Doomed(ss'[|ss|]);
    hide Doomed;
    if sid :| 0 <= sid < |ss| && Doomed(ss[sid]) {
      assert Doomed(ss'[sid]);
    }
  }

  lemma StepDooms(y: System, l: Label)
    requires CurrentInv(y) && Enabled(y, l)
    ensures AnyDoomed(Step(y, l).sessions) <==> AnyDoomed(y.sessions) || StepEndangers(y, l)
  {
    match l {
      case Do(sid, a) =>
        ActDooms(y.sessions[sid], y.deviceId, a);
        SetDoomed(y.sessions, sid, After(y.sessions[sid], y.deviceId, a), Endangers(y.sessions[sid], y.deviceId, a));
      case Detach =>
        var sid := y.current.value;
        SetDoomed(y.sessions, sid, y.sessions[sid].(stage := Stage.Detached), false);
      case Open => OpenDoomed(y.sessions);
      case _ =>
    }
    hide After, Can, Returned, Removals, Endangers, AnyDoomed;
  }

  lemma {:induction false} RunDooms(y: System, ls: seq<Label>)
    requires CurrentInv(y) && IsRun(y, ls)
    ensures AnyDoomed(Exec(y, ls).sessions) <==> AnyDoomed(y.sessions) || EndangeredRun(y, ls)
    decreases |ls|
  {
    if ls != [] {
      StepDooms(y, ls[0]);
      CurrentStep(y, ls[0]);
      hide AnyDoomed, StepEndangers, CurrentInv, Step, Enabled;
      RunDooms(Step(y, ls[0]), ls[1..]);
    }
  }

  /**
   A run leads to the panic exactly when it clears a map while the consumer is about to insert, or judges
   a forwarded payload after the map was cleared.
   */
  lemma PanicIffEndangered(dev: string, ls: seq<Label>)
    requires IsRun(Init(dev), ls)
    ensures AnyDoomed(Exec(Init(dev), ls).sessions) <==> EndangeredRun(Init(dev), ls)
  {
    RunDooms(Init(dev), ls);
  }

  // ---- A cleanup that waits for its consumer

  /** Every map is cleared after the consumer of its session has returned. */
  ghost predicate WaitsForConsumer(y: System, ls: seq<Label>)
    requires IsRun(y, ls)
    decreases |ls|
  {
    ls == [] ||
    ((ls[0].Do? && ls[0].act.ClearsPending? ==> y.sessions[ls[0].sid].consumer.Exited?)
     && WaitsForConsumer(Step(y, ls[0]), ls[1..]))
  }

  ghost predicate ClearedAreExited(ss: seq<Session>) {
    forall sid :: 0 <= sid < |ss| ==> PendingOpen(ss[sid]) || ss[sid].consumer.Exited?
  }

  lemma ActStaysExited(s: Session, dev: string, a: Act)
    requires Can(s, a) && (PendingOpen(s) || s.consumer.Exited?)
    requires a.ClearsPending? ==> s.consumer.Exited?
    ensures var s' := After(s, dev, a); PendingOpen(s') || s'.consumer.Exited?
    ensures !Endangers(s, dev, a)
  {
    if a.ConsumerSettles? || a.HandSettles? {
      SettlingSpares(s, if a.HandSettles? then a.settlement.tag else s.consumer.settlement.tag);
    }
    hide Judge, SettleTag, StopTimer;
  }

  lemma {:induction false} WaitingRuns(y: System, ls: seq<Label>)
    requires CurrentInv(y) && IsRun(y, ls) && ClearedAreExited(y.sessions) && WaitsForConsumer(y, ls)
    ensures !EndangeredRun(y, ls)
    decreases |ls|
  {
    if ls != [] {
      if ls[0].Do? {
        ActStaysExited(y.sessions[ls[0].sid], y.deviceId, ls[0].act);
      }
      CurrentStep(y, ls[0]);
      hide After, Can, Returned, Removals, Endangers;
      WaitingRuns(Step(y, ls[0]), ls[1..]);
    }
  }

  /** If cleanup waited for the consumer to return, no run would panic. */
  lemma WaitingNeverPanics(dev: string, ls: seq<Label>)
    requires IsRun(Init(dev), ls) && WaitsForConsumer(Init(dev), ls)
    ensures !AnyDoomed(Exec(Init(dev), ls).sessions)
  {
    WaitingRuns(Init(dev), ls);
    PanicIffEndangered(dev, ls);
  }
}
