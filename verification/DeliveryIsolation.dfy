/** A closed session cannot be noticed by the queue or by any other session, whatever it still does. */
module DeliveryIsolation {
  import opened Wrappers
  import opened Delivery
  import opened DeliveryInvariant
  import opened DeliveryTheorems
  import opened DeliveryGuarantees

  /** The run without the steps of one session. */
  function Without(ls: seq<Label>, sid: nat): seq<Label> {
    if ls == [] then []
    else if ls[0].Do? && ls[0].sid == sid then Without(ls[1..], sid)
    else [ls[0]] + Without(ls[1..], sid)
  }

  /** The systems differ in that session, and in the readers that still look for it, at most. */
  ghost predicate Agree(y: System, z: System, sid: nat) {
    && y.deviceId == z.deviceId && y.enqueued == z.enqueued && y.ready == z.ready && y.removed == z.removed
    && y.current == z.current && y.receipts == z.receipts && |y.sessions| == |z.sessions|
    && (forall k :: 0 <= k < |y.sessions| && k != sid ==> y.sessions[k] == z.sessions[k])
    && SameReaders(y.lookups, z.lookups, sid)
  }

  ghost predicate SameReaders(a: multiset<(nat, string)>, b: multiset<(nat, string)>, sid: nat) {
    forall k: nat, id :: k != sid ==> a[(k, id)] == b[(k, id)]
  }

  lemma ReaderGone(a: multiset<(nat, string)>, b: multiset<(nat, string)>, sid: nat, r: (nat, string))
    requires SameReaders(a, b, sid)
    ensures SameReaders(a - multiset{r}, b - multiset{r}, sid) && SameReaders(a + multiset{r}, b + multiset{r}, sid)
    ensures r.0 == sid ==> SameReaders(a - multiset{r}, b, sid)
    ensures r.0 != sid ==> (r in a <==> r in b)
  {
  }

  /** A closed session holds nothing, and its settlements reach nobody. */
  ghost predicate IsGone(y: System, sid: nat) {
    && sid < |y.sessions| && y.sessions[sid].stage == Closed && y.sessions[sid].unacked == map[]
    && y.current != Some(sid)
  }

  lemma OwnStepIsInert(y: System, z: System, sid: nat, a: Act)
    requires IsGone(y, sid) && Agree(y, z, sid) && Enabled(y, Do(sid, a))
    ensures IsGone(Step(y, Do(sid, a)), sid) && Agree(Step(y, Do(sid, a)), z, sid)
    ensures Step(y, Do(sid, a)).sessions[sid].settled == y.sessions[sid].settled
    ensures !Step(y, Do(sid, a)).sessions[sid].faulted || y.sessions[sid].faulted
  {
    ClosedActs(y.sessions[sid], y.deviceId, a);
    if a.ReceiptTakes? {
      ReaderGone(y.lookups, z.lookups, sid, (sid, a.messageId));
    }
    hide SameReaders, After, Returned, Removals;
  }

  lemma ClosedActs(s: Session, dev: string, a: Act)
    requires s.stage == Closed && s.unacked == map[] && Can(s, a)
    ensures Pulled(a) == multiset{} && Returned(s, a) == multiset{} && Removals(s, 0, a) == []
    ensures forall sid :: Removals(s, sid, a) == []
    ensures var s' := After(s, dev, a);
            s'.stage == Closed && s'.unacked == map[] && s'.settled == s.settled && s'.faulted == s.faulted
  {
    hide Judge;
  }

  lemma OtherActAgrees(y: System, z: System, sid: nat, k: nat, a: Act)
    requires IsGone(y, sid) && Agree(y, z, sid) && Enabled(y, Do(k, a)) && k != sid
    ensures Enabled(z, Do(k, a))
    ensures IsGone(Step(y, Do(k, a)), sid) && Agree(Step(y, Do(k, a)), Step(z, Do(k, a)), sid)
    ensures Step(y, Do(k, a)).sessions[sid] == y.sessions[sid]
  {
    if a.ReceiptTakes? {
      ReaderGone(y.lookups, z.lookups, sid, (k, a.messageId));
    }
    hide SameReaders, Can, After, Returned, Removals;
    assert y.sessions[k] == z.sessions[k];
  }

  lemma OtherStepAgrees(y: System, z: System, sid: nat, l: Label)
    requires IsGone(y, sid) && Agree(y, z, sid) && CurrentInv(y) && Enabled(y, l) && !(l.Do? && l.sid == sid)
    ensures Enabled(z, l) && IsGone(Step(y, l), sid) && Agree(Step(y, l), Step(z, l), sid)
    ensures Step(y, l).sessions[sid] == y.sessions[sid]
  {
    if l.Do? {
      OtherActAgrees(y, z, sid, l.sid, l.act);
      hide Agree, IsGone, Step, Enabled;
    }
    if l.ReceiptArrives? && y.current.Some? {
      ReaderGone(y.lookups, z.lookups, sid, (y.current.value, l.messageId));
    }
    hide SameReaders, Can, After, Returned, Removals;
  }

  lemma {:induction false} ClosedRuns(y: System, z: System, ls: seq<Label>, sid: nat)
    requires IsGone(y, sid) && Agree(y, z, sid) && CurrentInv(y) && IsRun(y, ls)
    ensures IsRun(z, Without(ls, sid)) && Agree(Exec(y, ls), Exec(z, Without(ls, sid)), sid)
    ensures IsGone(Exec(y, ls), sid)
    ensures Exec(y, ls).sessions[sid].settled == y.sessions[sid].settled
    ensures Exec(y, ls).sessions[sid].faulted ==> y.sessions[sid].faulted
    decreases |ls|
  {
    if ls != [] {
      var l, rest := ls[0], Without(ls[1..], sid);
      CurrentStep(y, l);
      if l.Do? && l.sid == sid {
        OwnStepIsInert(y, z, sid, l.act);
        hide Agree, IsGone, CurrentInv, Step, Enabled;
        ClosedRuns(Step(y, l), z, ls[1..], sid);
      } else {
        OtherStepAgrees(y, z, sid, l);
        hide Agree, CurrentInv, Step, Enabled;
        ClosedRuns(Step(y, l), Step(z, l), ls[1..], sid);
        assert ([l] + rest)[0] == l && ([l] + rest)[1..] == rest;
      }
    }
  }

  /**
   From a closed session on, dropping all its steps from any continuation leaves a run with the same queue,
   the same removals and the same other sessions; the closed session settles nothing and never faults.
   */
  lemma ClosedSessionIsInert(dev: string, before: seq<Label>, after: seq<Label>, sid: nat)
    requires IsRun(Init(dev), before) && sid < |Exec(Init(dev), before).sessions|
    requires Exec(Init(dev), before).sessions[sid].stage == Closed && IsRun(Exec(Init(dev), before), after)
    ensures var y := Exec(Init(dev), before);
            && IsRun(y, Without(after, sid))
            && Agree(Exec(y, after), Exec(y, Without(after, sid)), sid)
            && sid < |Exec(y, after).sessions|
            && Exec(y, after).sessions[sid].settled == y.sessions[sid].settled
            && Exec(y, after).sessions[sid].unacked == map[] && !Exec(y, after).sessions[sid].faulted
  {
    var y := Exec(Init(dev), before);
    Reachable(dev, before);
    ReachableSession(dev, before, sid);
    hide Exec, IsRun, Conserved, SessionsInv, RemovalsInv, ReceiptsInv, Placed;
    assert IsGone(y, sid) && Agree(y, y, sid);
    ClosedRuns(y, y, after, sid);
  }
}
