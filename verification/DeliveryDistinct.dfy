/** With distinct message ids every forwarded payload keeps its entry and its timer. */
module DeliveryDistinct {
  import opened Envelope
  import opened MultisetOfMap
  import opened Delivery
  import opened DeliveryInvariant
  import opened DeliveryTheorems
  import opened DeliveryGuarantees

  /** No two payloads on the channel have the same message id. */
  ghost predicate DistinctIds(unacked: Unacked) {
    forall t, u, id :: IsPayload(unacked, t, id) && IsPayload(unacked, u, id) ==> t == u
  }

  /** In every session, the outstanding payloads have distinct message ids. */
  ghost predicate DistinctOutstanding(y: System) {
    forall sid :: 0 <= sid < |y.sessions| ==> DistinctIds(y.sessions[sid].unacked)
  }

  /** So in every state that the run passes through. */
  ghost predicate DistinctRun(y: System, ls: seq<Label>)
    requires IsRun(y, ls)
    decreases |ls|
  {
    DistinctOutstanding(y) && (ls == [] || DistinctRun(Step(y, ls[0]), ls[1..]))
  }

  /** The delivery about to be inserted is not the one of any entry. */
  lemma EntriesAreOthers(s: Session, dev: string)
    requires SessionInv(s, dev) && s.stage != Closed && s.consumer.Inserting?
    ensures IsPayload(s.unacked, s.consumer.tag, s.consumer.messageId)
    ensures forall id :: id in s.pending ==> s.pending[id] != s.consumer.tag && IsPayload(s.unacked, s.pending[id], id)
  {
    var p :| Placed(s, dev, p);
    hide BufferInv, HandsInv, LostInv, WrittenInv;
  }

  lemma DistinctInsertion(s: Session, dev: string)
    requires SessionInv(s, dev) && PendingOpen(s) && s.consumer.Inserting? && DistinctIds(s.unacked)
    ensures s.consumer.messageId !in s.pending
  {
    EntriesAreOthers(s, dev);
    hide SessionInv, IsPayload;
  }

  lemma DistinctStep(y: System, l: Label)
    requires SystemInv(y) && Enabled(y, l) && DistinctOutstanding(y)
    ensures !Collides(y, l)
  {
    hide SessionInv, DistinctIds, Conserved, RemovalsInv, ReceiptsInv, CurrentInv, Returned, Removals, After;
    if l.Do? && l.act.ConsumerInserts? {
      DistinctInsertion(y.sessions[l.sid], y.deviceId);
    }
  }

  /** Distinct ids among the outstanding payloads exclude every collision in the map. */
  lemma {:induction false} DistinctNeverCollides(y: System, ls: seq<Label>)
    requires SystemInv(y) && IsRun(y, ls) && DistinctRun(y, ls)
    ensures NeverCollides(y, ls)
    decreases |ls|
  {
    if ls != [] {
      DistinctStep(y, ls[0]);
      StepKeeps(y, ls[0]);
      hide SystemInv, Step, Enabled, DistinctOutstanding;
      DistinctNeverCollides(Step(y, ls[0]), ls[1..]);
    }
  }

  /**
   While outstanding payloads have distinct message ids, a forwarded one that is still unacked waits with
   its own timer or is in one actor's hand.
   */
  lemma ForwardedPayloadIsTracked(dev: string, ls: seq<Label>, sid: nat, t: Tag)
    requires IsRun(Init(dev), ls) && DistinctRun(Init(dev), ls) && sid < |Exec(Init(dev), ls).sessions|
    requires var s := Exec(Init(dev), ls).sessions[sid];
             PendingOpen(s) && t in s.unacked && t in s.written && !InConsumer(s, t)
    ensures var s := Exec(Init(dev), ls).sessions[sid];
            AwaitingReceipt(s, t) != InHand(s, t)
  {
    assert SystemInv(Init(dev)) by { Reachable(dev, []); }
    DistinctNeverCollides(Init(dev), ls);
    TrackedUnlessOverwritten(dev, ls, sid, t);
    hide *;
  }

  // ---- Distinct ids of the messages that were ever enqueued

  /** No payload was enqueued twice, and no two under the same message id. */
  ghost predicate DistinctPayloads(ms: multiset<Message>) {
    forall m, n :: m in ms && n in ms && m.body.Payload? && n.body.Payload? && m.body.messageId == n.body.messageId ==>
      m == n && ms[m] == 1
  }

  lemma {:induction false} OneSessionOfAll(ss: seq<Session>, i: nat)
    requires i < |ss|
    ensures Values<Tag, Message>(ss[i].unacked) <= AllUnacked(ss)
  {
    hide Values;
    if i < |ss| - 1 {
      OneSessionOfAll(ss[..|ss| - 1], i);
    }
  }

  lemma TwoTagsCountTwice(u: Unacked, t: Tag, t': Tag)
    requires t in u && t' in u && t != t' && u[t] == u[t']
    ensures Values<Tag, Message>(u)[u[t]] >= 2
  {
    ValuesRemove<Tag, Message>(u, t);
    ValuesRemove<Tag, Message>(u - {t}, t');
    hide Values;
  }

  lemma TagCounts(u: Unacked, t: Tag)
    requires t in u
    ensures Values<Tag, Message>(u)[u[t]] >= 1
  {
    ValuesRemove<Tag, Message>(u, t);
    hide Values;
  }

  lemma DistinctEnqueued(y: System)
    requires Conserved(y) && DistinctPayloads(y.enqueued)
    ensures DistinctOutstanding(y)
  {
    forall sid | 0 <= sid < |y.sessions| ensures DistinctIds(y.sessions[sid].unacked) {
      var u := y.sessions[sid].unacked;
      OneSessionOfAll(y.sessions, sid);
      hide AllUnacked, Messages, Values;
      assert Values<Tag, Message>(u) <= y.enqueued;
      forall t, t', id | IsPayload(u, t, id) && IsPayload(u, t', id) ensures t == t' {
        TagCounts(u, t);
        TagCounts(u, t');
        assert u[t] in y.enqueued && u[t'] in y.enqueued;
        if t != t' {
          TwoTagsCountTwice(u, t, t');
        }
      }
    }
  }

  lemma {:induction false} EnqueuedGrows(y: System, ls: seq<Label>)
    requires IsRun(y, ls)
    ensures y.enqueued <= Exec(y, ls).enqueued
    decreases |ls|
  {
    if ls != [] {
      hide After, Can, Returned, Removals;
      EnqueuedGrows(Step(y, ls[0]), ls[1..]);
    }
  }

  lemma FewerAreDistinct(ms: multiset<Message>, more: multiset<Message>)
    requires ms <= more && DistinctPayloads(more)
    ensures DistinctPayloads(ms)
  {
    forall m | m in ms ensures m in more && ms[m] <= more[m] {
    }
  }

  lemma {:induction false} DistinctQueueRuns(y: System, ls: seq<Label>)
    requires SystemInv(y) && IsRun(y, ls) && DistinctPayloads(Exec(y, ls).enqueued)
    ensures DistinctRun(y, ls)
    decreases |ls|
  {
    EnqueuedGrows(y, ls);
    FewerAreDistinct(y.enqueued, Exec(y, ls).enqueued);
    DistinctEnqueued(y);
    if ls != [] {
      StepKeeps(y, ls[0]);
      hide SystemInv, Step, Enabled, DistinctOutstanding, DistinctPayloads;
      DistinctQueueRuns(Step(y, ls[0]), ls[1..]);
    }
  }

  /** When the payloads ever enqueued have distinct ids, no entry is ever overwritten. */
  lemma DistinctMessagesAreNeverOverwritten(dev: string, ls: seq<Label>)
    requires IsRun(Init(dev), ls) && DistinctPayloads(Exec(Init(dev), ls).enqueued)
    ensures DistinctRun(Init(dev), ls) && NothingOverwritten(Exec(Init(dev), ls))
  {
    assert SystemInv(Init(dev)) by { Reachable(dev, []); }
    DistinctQueueRuns(Init(dev), ls);
    DistinctNeverCollides(Init(dev), ls);
    OverwrittenIffIdsCollide(dev, ls);
    hide *;
  }
}
