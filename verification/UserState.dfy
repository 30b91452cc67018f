/**
 The userState object and its channel, updated in place. Each method is one critical section or one
 run of handleDelivery, and is proved to compute the corresponding step of the protocol.
 */
module UserStates {
  import opened Wrappers
  import opened Envelope
  import opened Delivery

  class UserState {
    const deviceId: string

    // the goroutines of the session
    var stage: Stage
    var consumer: Consumer
    var pendingAcks: map<string, Tag>
    var timers: map<Tag, Timer>
    ghost var hands: multiset<Settlement>

    // the channel, as the broker sees it
    var nextTag: Tag
    var unacked: map<Tag, Message>
    var buffer: seq<Delivered>

    // history
    ghost var settled: seq<Tag>
    ghost var faulted: bool
    ghost var written: set<Tag>
    ghost var overwritten: set<Tag>
    ghost var forgotten: set<Tag>

    ghost function Model(): Session
      reads this
    {
      Session(stage, nextTag, unacked, buffer, consumer, pendingAcks, timers, hands,
              settled, faulted, written, overwritten, forgotten)
    }

    constructor (deviceId: string)
      ensures Model() == NEW_SESSION && this.deviceId == deviceId
    {
      this.deviceId := deviceId;
      stage, consumer, pendingAcks, timers, hands := Live, Idle, map[], map[], multiset{};
      nextTag, unacked, buffer := 1, map[], [];
      settled, faulted, written, overwritten, forgotten := [], false, {}, {}, {};
    }

    /** The body of handleDelivery up to its verdict; writes[i] is the result of writing to target i. */
    method HandleDelivery(writes: seq<bool>)
      requires consumer.Handling?
      modifies this
      ensures Model() == Handle(old(Model()), deviceId, writes)
    {
      var d := consumer.delivery;
      if d.msg.body.Undecodable? {
        consumer := Settling(Settlement(d.tag, BadBody));
        return;
      }
      if IsEchoFor(d.msg, deviceId) {
        consumer := Settling(Settlement(d.tag, SourceEcho));
        return;
      }
      if |writes| == 0 {
        consumer := Settling(Settlement(d.tag, NoTargets));
        return;
      }
      var deliveredTo := 0;
      for i := 0 to |writes|
        invariant 0 <= deliveredTo <= i
        invariant deliveredTo == 0 <==> true !in writes[..i]
        invariant Model() == old(Model())
      {
        assert writes[..i + 1] == writes[..i] + [writes[i]];
        if writes[i] {
          deliveredTo := deliveredTo + 1;
        }
      }
      assert writes[..|writes|] == writes;
      if deliveredTo == 0 {
        consumer := Settling(Settlement(d.tag, NoWrite));
        return;
      }
      written := written + {d.tag};
      if d.msg.body.Payload? {
        consumer := Inserting(d.tag, d.msg.body.messageId);
      } else {
        consumer := Settling(Settlement(d.tag, Forwarded));
      }
    }

    /** The critical section that arms the timer and stores the entry. */
    method InsertPending()
      requires consumer.Inserting? && PendingOpen(Model())
      modifies this
      ensures Model() == Insert(old(Model()))
    {
      var tag, id := consumer.tag, consumer.messageId;
      if id in pendingAcks {
        overwritten := overwritten + {pendingAcks[id]};
      }
      timers := timers[tag := Timer(id, Armed)];
      pendingAcks := pendingAcks[id := tag];
      consumer := Idle;
    }

    /** The timer closure: takes whatever its message id now names. */
    method OnTimeout(timer: Tag) returns (taken: Option<Tag>)
      requires timer in timers && timers[timer].state == Fired
      modifies this
      ensures Model() == TakeByTimer(old(Model()), timer)
      ensures var id := old(timers[timer].messageId);
              taken == if id in old(pendingAcks) then Some(old(pendingAcks[id])) else None
    {
      var id := timers[timer].messageId;
      timers := timers[timer := Timer(id, Done)];
      taken := None;
      if id in pendingAcks {
        taken := Some(pendingAcks[id]);
        hands := hands + multiset{Settlement(pendingAcks[id], ByTimeout(id))};
        pendingAcks := pendingAcks - {id};
      }
    }

    /** handleReceipt's critical section for a DELIVERED receipt. */
    method OnReceipt(id: string) returns (taken: Option<Tag>)
      modifies this
      ensures Model() == TakeByReceipt(old(Model()), id)
      ensures taken == if id in old(pendingAcks) then Some(old(pendingAcks[id])) else None
    {
      taken := None;
      if id in pendingAcks {
        var tag := pendingAcks[id];
        taken := Some(tag);
        if tag in timers && timers[tag].state == Armed {
          timers := timers[tag := timers[tag].(state := Stopped)];
        }
        hands := hands + multiset{Settlement(tag, ByReceipt(id))};
        pendingAcks := pendingAcks - {id};
      }
    }

    /** ack and nack: nothing on a closed channel, otherwise the broker drops the tag. */
    method SettleOnChannel(x: Settlement) returns (outcome: Option<Message>)
      modifies this
      ensures Model() == SettleTag(old(Model()), x.tag)
      ensures outcome == if old(stage) != Closed && x.tag in old(unacked) then Some(old(unacked[x.tag])) else None
    {
      outcome := None;
      if stage == Closed {
        return;
      }
      if x.tag in unacked {
        outcome := Some(unacked[x.tag]);
        unacked := unacked - {x.tag};
        settled := settled + [x.tag];
      } else {
        faulted := true;
      }
    }

    /** The second part of cleanupUserState: stop the timers of the entries, then drop the map. */
    method ClearPendingAcks()
      requires stage == Cancelled
      modifies this
      ensures Model() == ClearPending(old(Model()))
    {
      ghost var before := Model();
      var todo := pendingAcks.Keys;
      ghost var stopped: set<Tag> := {};
      while todo != {}
        invariant todo <= before.pending.Keys
        invariant stopped == set id | id in before.pending.Keys - todo :: before.pending[id]
        invariant timers == StopAll(before.timers, stopped)
        invariant Model() == before.(timers := timers)
        decreases todo
      {
        var id :| id in todo;
        var tag := pendingAcks[id];
        StopOneMore(before.timers, stopped, tag);
        timers := StopTimer(timers, tag);
        todo := todo - {id};
        stopped := stopped + {tag};
      }
      assert stopped == before.pending.Values;
      forgotten := forgotten + pendingAcks.Values;
      pendingAcks := map[];
      stage := MapCleared;
    }

    /** The last part of cleanupUserState; the broker takes back what the channel held. */
    method CloseAmqpChannel() returns (requeued: map<Tag, Message>)
      requires stage == MapCleared
      modifies this
      ensures Model() == CloseChannel(old(Model())) && requeued == old(unacked)
    {
      requeued := unacked;
      unacked := map[];
      stage := Closed;
    }
  }

  /** The timers after stopping those of the given tags. */
  function StopAll(timers: map<Tag, Timer>, tags: set<Tag>): map<Tag, Timer> {
    map t | t in timers ::
      if t in tags && timers[t].state == Armed then timers[t].(state := Stopped) else timers[t]
  }

  lemma StopOneMore(timers: map<Tag, Timer>, tags: set<Tag>, tag: Tag)
    ensures StopTimer(StopAll(timers, tags), tag) == StopAll(timers, tags + {tag})
  {
  }
}
