/** The inductive invariant of one session: every unsettled tag is in exactly one place. */
module DeliveryInvariant {
  import opened Wrappers
  import opened Envelope
  import opened Delivery

  /** Where the process keeps a tag that the broker counts as unacked. */
  datatype Place = Buffered | AtConsumer | Mapped(messageId: string) | Held(settlement: Settlement) | Lost

  type Places = map<Tag, Place>
  type Unacked = map<Tag, Message>

  function ConsumerTag(c: Consumer): Option<Tag> {
    match c
    case Handling(d) => Some(d.tag)
    case Settling(x) => Some(x.tag)
    case Inserting(tag, _) => Some(tag)
    case _ => None
  }

  predicate LiveTimer(timers: map<Tag, Timer>, t: Tag, id: string) {
    t in timers && timers[t].messageId == id && timers[t].state in {Armed, Fired}
  }

  predicate IsPayload(unacked: Unacked, t: Tag, id: string) {
    t in unacked && unacked[t].body.Payload? && unacked[t].body.messageId == id
  }

  /** A cause that handleDelivery's verdict on m allows. */
  predicate VerdictCause(deviceId: string, m: Message, c: Cause, written: bool) {
    match c
    case BadBody => m.body.Undecodable?
    case SourceEcho => !m.body.Undecodable? && IsEchoFor(m, deviceId)
    case Forwarded => !m.body.Undecodable? && !m.body.Payload? && written
    case NoTargets | NoWrite => true
    case _ => false
  }

  // ---- One predicate per place, each saying that exactly the tags placed there are there

  ghost predicate BufferInv(buffer: seq<Delivered>, unacked: Unacked, p: Places) {
    && (forall i, j :: 0 <= i < j < |buffer| ==> buffer[i].tag < buffer[j].tag)
    && (forall i :: 0 <= i < |buffer| ==>
          && buffer[i].tag in p && p[buffer[i].tag] == Buffered
          && buffer[i].tag in unacked && unacked[buffer[i].tag] == buffer[i].msg)
    && (forall t :: t in p && p[t] == Buffered ==> exists i :: 0 <= i < |buffer| && buffer[i].tag == t)
  }

  ghost predicate ConsumerInv(c: Consumer, unacked: Unacked, written: set<Tag>, deviceId: string, p: Places) {
    && (forall t :: t in p && p[t] == AtConsumer ==> ConsumerTag(c) == Some(t))
    && (ConsumerTag(c).Some? ==>
          var t := ConsumerTag(c).value;
          && t in p && p[t] == AtConsumer && t in unacked
          && match c
             case Handling(d) => unacked[t] == d.msg
             case Settling(x) => VerdictCause(deviceId, unacked[t], x.cause, t in written)
             case Inserting(_, id) => IsPayload(unacked, t, id) && t in written
             case _ => true)
  }

  /** Every entry of pendingAcks names a written payload and has its own running timer. */
  ghost predicate PendingInv(pending: map<string, Tag>, timers: map<Tag, Timer>,
                             unacked: Unacked, written: set<Tag>, p: Places) {
    && (forall id :: id in pending ==>
          var t := pending[id];
          t in p && p[t] == Mapped(id) && t in written && LiveTimer(timers, t, id) && IsPayload(unacked, t, id))
    && (forall t :: t in p && p[t].Mapped? ==> p[t].messageId in pending && pending[p[t].messageId] == t)
  }

  /** Only receipts and timers hold settlements in hand, one for a tag. */
  ghost predicate HandsInv(hands: multiset<Settlement>, unacked: Unacked, written: set<Tag>, p: Places) {
    && (forall x :: x in hands ==>
          && hands[x] == 1 && x.tag in p && p[x.tag] == Held(x) && x.tag in written
          && (x.cause.ByReceipt? || x.cause.ByTimeout?) && IsPayload(unacked, x.tag, x.cause.messageId))
    && (forall t :: t in p && p[t].Held? ==> p[t].settlement in hands && p[t].settlement.tag == t)
  }

  ghost predicate LostInv(lost: set<Tag>, p: Places) {
    forall t :: t in lost <==> t in p && p[t] == Lost
  }

  /** Nothing still in the buffer was written to a socket. */
  ghost predicate WrittenInv(buffer: seq<Delivered>, written: set<Tag>, nextTag: Tag) {
    && (forall t :: t in written ==> t < nextTag)
    && (forall i :: 0 <= i < |buffer| ==> buffer[i].tag !in written)
  }

  ghost predicate Placed(s: Session, deviceId: string, p: Places) {
    && p.Keys == s.unacked.Keys
    && (forall t :: t in p ==> t < s.nextTag)
    && BufferInv(s.buffer, s.unacked, p)
    && ConsumerInv(s.consumer, s.unacked, s.written, deviceId, p)
    && PendingInv(s.pending, s.timers, s.unacked, s.written, p)
    && HandsInv(s.hands, s.unacked, s.written, p)
    && LostInv(s.overwritten + s.forgotten, p) && s.overwritten !! s.forgotten
    && WrittenInv(s.buffer, s.written, s.nextTag)
  }

  /** No tag was settled twice, and no settled tag is unacked again. */
  ghost predicate SettledOnce(settled: seq<Tag>, unacked: Unacked, nextTag: Tag) {
    && (forall i, j :: 0 <= i < j < |settled| ==> settled[i] != settled[j])
    && (forall i :: 0 <= i < |settled| ==> settled[i] !in unacked && settled[i] < nextTag)
  }

  ghost predicate HistoryInv(s: Session) {
    && SettledOnce(s.settled, s.unacked, s.nextTag)
    && !s.faulted
    && (s.stage == Closed ==> s.unacked == map[])
    && (!PendingOpen(s) ==> s.pending == map[])
    && (s.forgotten != {} ==> !PendingOpen(s))
  }

  ghost predicate SessionInv(s: Session, deviceId: string) {
    && HistoryInv(s)
    && (s.stage != Closed ==> exists p :: Placed(s, deviceId, p))
  }

  // ---- Frames: a place not involved in a move keeps its predicate

  /** p' and u' differ from p and u at most at t. */
  ghost predicate Moves(p: Places, p': Places, u: Unacked, u': Unacked, t: Tag) {
    && (forall k :: k != t ==> ((k in p <==> k in p') && (k in u <==> k in u')))
    && (forall k :: k != t && k in p ==> p'[k] == p[k])
    && (forall k :: k != t && k in u ==> u'[k] == u[k])
  }

  lemma BufferFrame(buffer: seq<Delivered>, u: Unacked, p: Places, u': Unacked, p': Places, t: Tag)
    requires BufferInv(buffer, u, p) && Moves(p, p', u, u', t)
    requires (t in p ==> !p[t].Buffered?) && (t in p' ==> !p'[t].Buffered?)
    ensures BufferInv(buffer, u', p')
  {
  }

  lemma PendingFrame(pending: map<string, Tag>, timers: map<Tag, Timer>, timers': map<Tag, Timer>, w: set<Tag>, w': set<Tag>,
                     u: Unacked, p: Places, u': Unacked, p': Places, t: Tag)
    requires PendingInv(pending, timers, u, w, p) && Moves(p, p', u, u', t) && w <= w'
    requires forall k, id :: k != t && LiveTimer(timers, k, id) ==> LiveTimer(timers', k, id)
    requires (t in p ==> !p[t].Mapped?) && (t in p' ==> !p'[t].Mapped?)
    ensures PendingInv(pending, timers', u', w', p')
  {
  }

  lemma HandsFrame(hands: multiset<Settlement>, w: set<Tag>, w': set<Tag>, u: Unacked, p: Places, u': Unacked, p': Places, t: Tag)
    requires HandsInv(hands, u, w, p) && Moves(p, p', u, u', t) && w <= w'
    requires (t in p ==> !p[t].Held?) && (t in p' ==> !p'[t].Held?)
    ensures HandsInv(hands, u', w', p')
  {
  }

  lemma ConsumerFrame(c: Consumer, w: set<Tag>, w': set<Tag>, dev: string,
                      u: Unacked, p: Places, u': Unacked, p': Places, t: Tag)
    requires ConsumerInv(c, u, w, dev, p) && Moves(p, p', u, u', t) && w <= w'
    requires (t in p ==> !p[t].AtConsumer?) && (t in p' ==> !p'[t].AtConsumer?)
    ensures ConsumerInv(c, u', w', dev, p')
  {
  }

  lemma LostFrame(lost: set<Tag>, u: Unacked, p: Places, u': Unacked, p': Places, t: Tag)
    requires LostInv(lost, p) && Moves(p, p', u, u', t)
    requires (t in p ==> !p[t].Lost?) && (t in p' ==> !p'[t].Lost?)
    ensures LostInv(lost, p')
  {
  }

  // ---- Every session step keeps the placement

  lemma PushKeeps(s: Session, dev: string, m: Message, p: Places)
    requires Placed(s, dev, p)
    ensures Placed(Push(s, m), dev, p[s.nextTag := Buffered])
  {
    hide BufferInv, ConsumerInv, PendingInv, HandsInv, LostInv, WrittenInv;
    var t := s.nextTag;
    var u', p' := s.unacked[t := m], p[t := Buffered];
    assert t !in p;
    BufferGrows(s.buffer, s.unacked, p, t, m);
    BufferGrowsUnwritten(s.buffer, s.written, t, m);
    ConsumerFrame(s.consumer, s.written, s.written, dev, s.unacked, p, u', p', t);
    PendingFrame(s.pending, s.timers, s.timers, s.written, s.written, s.unacked, p, u', p', t);
    HandsFrame(s.hands, s.written, s.written, s.unacked, p, u', p', t);
    LostFrame(s.overwritten + s.forgotten, s.unacked, p, u', p', t);
  }

  lemma BufferGrows(buffer: seq<Delivered>, u: Unacked, p: Places, t: Tag, m: Message)
    requires BufferInv(buffer, u, p) && t !in p && forall k :: k in p ==> k < t
    ensures BufferInv(buffer + [Delivered(t, m)], u[t := m], p[t := Buffered])
  {
    var buffer', p' := buffer + [Delivered(t, m)], p[t := Buffered];
    forall k | k in p' && p'[k] == Buffered ensures exists i :: 0 <= i < |buffer'| && buffer'[i].tag == k {
      if k == t {
        assert buffer'[|buffer|].tag == k;
      } else {
        var i :| 0 <= i < |buffer| && buffer[i].tag == k;
        assert buffer'[i].tag == k;
      }
    }
  }

  lemma BufferGrowsUnwritten(buffer: seq<Delivered>, w: set<Tag>, t: Tag, m: Message)
    requires WrittenInv(buffer, w, t)
    ensures WrittenInv(buffer + [Delivered(t, m)], w, t + 1)
  {
  }

  lemma TakeKeeps(s: Session, dev: string, p: Places)
    requires Placed(s, dev, p) && s.consumer.Idle? && s.buffer != []
    ensures Placed(Take(s), dev, p[s.buffer[0].tag := AtConsumer])
  {
    hide ConsumerInv, PendingInv, HandsInv, LostInv;
    var t := s.buffer[0].tag;
    assert WrittenInv(s.buffer[1..], s.written, s.nextTag);
    hide WrittenInv;
    var p' := p[t := AtConsumer];
    assert t in p && p[t] == Buffered;
    hide BufferInv;
    BufferShrinks(s.buffer, s.unacked, s.written, dev, p);
    PendingFrame(s.pending, s.timers, s.timers, s.written, s.written, s.unacked, p, s.unacked, p', t);
    HandsFrame(s.hands, s.written, s.written, s.unacked, p, s.unacked, p', t);
    LostFrame(s.overwritten + s.forgotten, s.unacked, p, s.unacked, p', t);
  }

  lemma BufferShrinks(buffer: seq<Delivered>, u: Unacked, w: set<Tag>, dev: string, p: Places)
    requires BufferInv(buffer, u, p) && buffer != [] && ConsumerInv(Idle, u, w, dev, p)
    ensures BufferInv(buffer[1..], u, p[buffer[0].tag := AtConsumer])
    ensures ConsumerInv(Handling(buffer[0]), u, w, dev, p[buffer[0].tag := AtConsumer])
  {
    var buffer', p' := buffer[1..], p[buffer[0].tag := AtConsumer];
    assert forall i :: 0 <= i < |buffer'| ==> buffer'[i] == buffer[i + 1];
    forall k | k in p' && p'[k] == Buffered ensures exists i :: 0 <= i < |buffer'| && buffer'[i].tag == k {
      var i :| 0 <= i < |buffer| && buffer[i].tag == k;
      assert buffer'[i - 1].tag == k;
    }
  }

  lemma HandleKeeps(s: Session, dev: string, writes: seq<bool>, p: Places)
    requires Placed(s, dev, p) && s.consumer.Handling?
    ensures Placed(Handle(s, dev, writes), dev, p)
  {
    hide BufferInv, ConsumerInv, PendingInv, HandsInv, LostInv, WrittenInv, Judge;
    var s' := Handle(s, dev, writes);
    assert s.nextTag !in p;
    ConsumerDecides(s.consumer.delivery, dev, writes, s.unacked, s.written, p);
    ConsumerWrites(s.consumer.delivery, s.buffer, dev, s.unacked, s.written, s.nextTag, p);
    PendingFrame(s.pending, s.timers, s.timers, s.written, s'.written, s.unacked, p, s.unacked, p, s.nextTag);
    HandsFrame(s.hands, s.written, s'.written, s.unacked, p, s.unacked, p, s.nextTag);
  }

  lemma ConsumerWrites(d: Delivered, buffer: seq<Delivered>, dev: string, u: Unacked, w: set<Tag>, nextTag: Tag, p: Places)
    requires ConsumerInv(Handling(d), u, w, dev, p) && BufferInv(buffer, u, p) && WrittenInv(buffer, w, nextTag)
    requires forall t :: t in p ==> t < nextTag
    ensures WrittenInv(buffer, w + {d.tag}, nextTag)
  {
  }

  lemma ConsumerDecides(d: Delivered, dev: string, writes: seq<bool>, u: Unacked, w: set<Tag>, p: Places)
    requires ConsumerInv(Handling(d), u, w, dev, p)
    ensures match Judge(dev, d.msg, writes)
            case Settle(cause) =>
              ConsumerInv(Settling(Settlement(d.tag, cause)), u, if cause == Forwarded then w + {d.tag} else w, dev, p)
            case Await(id) => ConsumerInv(Inserting(d.tag, id), u, w + {d.tag}, dev, p)
  {
    hide IsEchoFor;
  }

  lemma SettleByConsumerKeeps(s: Session, dev: string, p: Places)
    requires Placed(s, dev, p) && s.consumer.Settling? && s.stage != Closed
    ensures Placed(SettleByConsumer(s), dev, p - {s.consumer.settlement.tag})
    ensures s.consumer.settlement.tag in s.unacked
  {
    hide WrittenInv;
    hide BufferInv, PendingInv, HandsInv, LostInv;
    var t := s.consumer.settlement.tag;
    var u', p' := s.unacked - {t}, p - {t};
    assert t in p && p[t] == AtConsumer && t in s.unacked;
    assert ConsumerInv(Idle, u', s.written, dev, p');
    hide ConsumerInv;
    BufferFrame(s.buffer, s.unacked, p, u', p', t);
    PendingFrame(s.pending, s.timers, s.timers, s.written, s.written, s.unacked, p, u', p', t);
    HandsFrame(s.hands, s.written, s.written, s.unacked, p, u', p', t);
    LostFrame(s.overwritten + s.forgotten, s.unacked, p, u', p', t);
  }

  function PlaceAfterInsert(s: Session, p: Places): Places
    requires s.consumer.Inserting?
  {
    var id := s.consumer.messageId;
    (if id in s.pending then p[s.pending[id] := Lost] else p)[s.consumer.tag := Mapped(id)]
  }

  lemma InsertKeeps(s: Session, dev: string, p: Places)
    requires Placed(s, dev, p) && s.consumer.Inserting? && PendingOpen(s)
    ensures Placed(Insert(s), dev, PlaceAfterInsert(s, p))
  {
    hide BufferInv, ConsumerInv, PendingInv, HandsInv, LostInv, WrittenInv;
    var tag, id, u := s.consumer.tag, s.consumer.messageId, s.unacked;
    var q, p' := if id in s.pending then p[s.pending[id] := Lost] else p, PlaceAfterInsert(s, p);
    assert p' == q[tag := Mapped(id)];
    hide PlaceAfterInsert;
    assert Moves(q, p', u, u, tag);
    hide Moves;
    ConsumerInserts(tag, id, s.pending, s.timers, u, s.written, dev, p);
    if id in s.pending {
      Overwrites(s, p, s.pending[id]);
    }
    BufferFrame(s.buffer, u, q, u, p', tag);
    HandsFrame(s.hands, s.written, s.written, u, q, u, p', tag);
    var over := if id in s.pending then s.overwritten + {s.pending[id]} else s.overwritten;
    LostFrame(over + s.forgotten, u, q, u, p', tag);
    assert Insert(s) == s.(consumer := Idle, timers := s.timers[tag := Timer(id, Armed)],
                           overwritten := over, pending := s.pending[id := tag]);
    hide Insert;
  }

  lemma ConsumerInserts(tag: Tag, id: string, pending: map<string, Tag>, timers: map<Tag, Timer>,
                        u: Unacked, w: set<Tag>, dev: string, p: Places)
    requires ConsumerInv(Inserting(tag, id), u, w, dev, p) && PendingInv(pending, timers, u, w, p)
    ensures tag in p && p[tag] == AtConsumer
    ensures id in pending ==> pending[id] in p && p[pending[id]] == Mapped(id)
    ensures var p' := (if id in pending then p[pending[id] := Lost] else p)[tag := Mapped(id)];
            && ConsumerInv(Idle, u, w, dev, p')
            && PendingInv(pending[id := tag], timers[tag := Timer(id, Armed)], u, w, p')
  {
    PendingGrows(pending, timers, u, w, p, id, tag);
  }

  lemma Overwrites(s: Session, p: Places, t: Tag)
    requires BufferInv(s.buffer, s.unacked, p) && HandsInv(s.hands, s.unacked, s.written, p)
    requires LostInv(s.overwritten + s.forgotten, p) && t in p && p[t].Mapped?
    ensures t !in s.forgotten
    ensures BufferInv(s.buffer, s.unacked, p[t := Lost]) && HandsInv(s.hands, s.unacked, s.written, p[t := Lost])
    ensures LostInv(s.overwritten + {t} + s.forgotten, p[t := Lost])
  {
    hide BufferInv, HandsInv, LostInv;
    BufferFrame(s.buffer, s.unacked, p, s.unacked, p[t := Lost], t);
    HandsFrame(s.hands, s.written, s.written, s.unacked, p, s.unacked, p[t := Lost], t);
    LostGrows(s.overwritten, s.forgotten, p, t);
  }

  lemma LostGrows(overwritten: set<Tag>, forgotten: set<Tag>, p: Places, t: Tag)
    requires LostInv(overwritten + forgotten, p)
    ensures LostInv(overwritten + {t} + forgotten, p[t := Lost])
    ensures t in p && p[t] != Lost ==> t !in forgotten
  {
  }

  lemma PendingGrows(pending: map<string, Tag>, timers: map<Tag, Timer>, u: Unacked, w: set<Tag>, p: Places,
                     id: string, tag: Tag)
    requires PendingInv(pending, timers, u, w, p)
    requires tag in w && IsPayload(u, tag, id) && tag in p && !p[tag].Mapped?
    ensures PendingInv(pending[id := tag], timers[tag := Timer(id, Armed)], u, w,
                       (if id in pending then p[pending[id] := Lost] else p)[tag := Mapped(id)])
  {
  }

  lemma FireKeeps(s: Session, dev: string, timer: Tag, p: Places)
    requires Placed(s, dev, p) && timer in s.timers && s.timers[timer].state == Armed
    ensures Placed(Fire(s, timer), dev, p)
  {
    hide WrittenInv;
    PendingTimers(s.pending, s.timers, Fire(s, timer).timers, s.unacked, s.written, p);
  }

  lemma PendingTimers(pending: map<string, Tag>, timers: map<Tag, Timer>, timers': map<Tag, Timer>,
                      u: Unacked, w: set<Tag>, p: Places)
    requires PendingInv(pending, timers, u, w, p)
    requires forall k, id :: id in pending && LiveTimer(timers, k, id) ==> LiveTimer(timers', k, id)
    ensures PendingInv(pending, timers', u, w, p)
  {
  }

  /** Moving the entry of one message id from the map into a hand. */
  lemma TakeEntryKeeps(s: Session, timers': map<Tag, Timer>, dev: string, x: Settlement, p: Places)
    requires Placed(s, dev, p)
    requires x.cause.ByReceipt? || x.cause.ByTimeout?
    requires x.cause.messageId in s.pending && s.pending[x.cause.messageId] == x.tag
    requires forall k, id :: k != x.tag && id != x.cause.messageId && LiveTimer(s.timers, k, id) ==> LiveTimer(timers', k, id)
    ensures Placed(s.(pending := s.pending - {x.cause.messageId}, hands := s.hands + multiset{x}, timers := timers'),
                   dev, p[x.tag := Held(x)])
  {
    hide WrittenInv;
    hide BufferInv, ConsumerInv, HandsInv, LostInv;
    var p' := p[x.tag := Held(x)];
    assert x.tag in p && p[x.tag].Mapped? && x.tag in s.written && IsPayload(s.unacked, x.tag, x.cause.messageId);
    PendingShrinks(s.pending, s.timers, timers', s.unacked, s.written, p, x);
    hide PendingInv;
    BufferFrame(s.buffer, s.unacked, p, s.unacked, p', x.tag);
    ConsumerFrame(s.consumer, s.written, s.written, dev, s.unacked, p, s.unacked, p', x.tag);
    HandsGrow(s.hands, s.unacked, s.written, p, x);
    LostFrame(s.overwritten + s.forgotten, s.unacked, p, s.unacked, p', x.tag);
  }

  lemma PendingShrinks(pending: map<string, Tag>, timers: map<Tag, Timer>, timers': map<Tag, Timer>,
                       u: Unacked, w: set<Tag>, p: Places, x: Settlement)
    requires PendingInv(pending, timers, u, w, p) && (x.cause.ByReceipt? || x.cause.ByTimeout?)
    requires x.cause.messageId in pending && pending[x.cause.messageId] == x.tag
    requires forall k, id :: k != x.tag && id != x.cause.messageId && LiveTimer(timers, k, id) ==> LiveTimer(timers', k, id)
    ensures PendingInv(pending - {x.cause.messageId}, timers', u, w, p[x.tag := Held(x)])
  {
  }

  lemma HandsGrow(hands: multiset<Settlement>, u: Unacked, w: set<Tag>, p: Places, x: Settlement)
    requires HandsInv(hands, u, w, p) && x.tag in p && !p[x.tag].Held? && x.tag in w
    requires (x.cause.ByReceipt? || x.cause.ByTimeout?) && IsPayload(u, x.tag, x.cause.messageId)
    ensures HandsInv(hands + multiset{x}, u, w, p[x.tag := Held(x)])
  {
    assert x !in hands;
  }

  lemma TakeByTimerKeeps(s: Session, dev: string, timer: Tag, p: Places)
    requires Placed(s, dev, p) && timer in s.timers && s.timers[timer].state == Fired
    ensures exists q :: Placed(TakeByTimer(s, timer), dev, q)
  {
    hide WrittenInv;
    hide BufferInv, ConsumerInv, HandsInv, LostInv;
    var s', id := TakeByTimer(s, timer), s.timers[timer].messageId;
    if id in s.pending {
      var x := Settlement(s.pending[id], ByTimeout(id));
      hide PendingInv;
      TakeEntryKeeps(s, s'.timers, dev, x, p);
      assert Placed(s', dev, p[x.tag := Held(x)]);
    } else {
      PendingTimers(s.pending, s.timers, s'.timers, s.unacked, s.written, p);
      assert Placed(s', dev, p);
    }
  }

  lemma TakeByReceiptKeeps(s: Session, dev: string, id: string, p: Places)
    requires Placed(s, dev, p)
    ensures exists q :: Placed(TakeByReceipt(s, id), dev, q)
  {
    hide WrittenInv;
    hide BufferInv, ConsumerInv, HandsInv, PendingInv, LostInv;
    var s' := TakeByReceipt(s, id);
    if id in s.pending {
      var x := Settlement(s.pending[id], ByReceipt(id));
      TakeEntryKeeps(s, s'.timers, dev, x, p);
      assert Placed(s', dev, p[x.tag := Held(x)]);
    } else {
      assert s' == s;
    }
  }

  lemma SettleInHandKeeps(s: Session, dev: string, x: Settlement, p: Places)
    requires Placed(s, dev, p) && x in s.hands && s.stage != Closed
    ensures Placed(SettleInHand(s, x), dev, p - {x.tag})
    ensures x.tag in s.unacked
  {
    hide WrittenInv;
    hide BufferInv, ConsumerInv, PendingInv, LostInv;
    var u', p' := s.unacked - {x.tag}, p - {x.tag};
    assert x.tag in p && p[x.tag] == Held(x) && x.tag in s.unacked;
    HandsShrink(s.hands, s.unacked, s.written, p, x);
    hide HandsInv;
    BufferFrame(s.buffer, s.unacked, p, u', p', x.tag);
    ConsumerFrame(s.consumer, s.written, s.written, dev, s.unacked, p, u', p', x.tag);
    PendingFrame(s.pending, s.timers, s.timers, s.written, s.written, s.unacked, p, u', p', x.tag);
    LostFrame(s.overwritten + s.forgotten, s.unacked, p, u', p', x.tag);
  }

  lemma HandsShrink(hands: multiset<Settlement>, u: Unacked, w: set<Tag>, p: Places, x: Settlement)
    requires HandsInv(hands, u, w, p) && x in hands
    ensures HandsInv(hands - multiset{x}, u - {x.tag}, w, p - {x.tag})
  {
    assert forall y :: y in hands - multiset{x} <==> y in hands && y != x;
  }

  function PlaceAfterClear(p: Places): Places {
    map t | t in p :: if p[t].Mapped? then Lost else p[t]
  }

  lemma ClearPendingKeeps(s: Session, dev: string, p: Places)
    requires Placed(s, dev, p)
    ensures Placed(ClearPending(s), dev, PlaceAfterClear(p))
  {
    hide BufferInv, ConsumerInv, PendingInv, HandsInv, LostInv, WrittenInv;
    ClearLoses(s.pending, s.timers, ClearPending(s).timers, s.overwritten + s.forgotten, s.unacked, s.written, p);
    assert s.overwritten + s.forgotten + s.pending.Values == s.overwritten + (s.forgotten + s.pending.Values);
    ClearSpares(s.buffer, s.consumer, s.hands, s.unacked, s.written, dev, p);
  }

  lemma ClearLoses(pending: map<string, Tag>, timers: map<Tag, Timer>, timers': map<Tag, Timer>, lost: set<Tag>,
                   u: Unacked, w: set<Tag>, p: Places)
    requires PendingInv(pending, timers, u, w, p) && LostInv(lost, p)
    ensures LostInv(lost + pending.Values, PlaceAfterClear(p)) && lost !! pending.Values
    ensures PendingInv(map[], timers', u, w, PlaceAfterClear(p))
  {
    assert forall t :: t in pending.Values <==> t in p && p[t].Mapped?;
  }

  lemma ClearSpares(buffer: seq<Delivered>, c: Consumer, hands: multiset<Settlement>,
                    u: Unacked, w: set<Tag>, dev: string, p: Places)
    requires BufferInv(buffer, u, p) && ConsumerInv(c, u, w, dev, p) && HandsInv(hands, u, w, p)
    ensures BufferInv(buffer, u, PlaceAfterClear(p))
    ensures ConsumerInv(c, u, w, dev, PlaceAfterClear(p))
    ensures HandsInv(hands, u, w, PlaceAfterClear(p))
  {
    hide VerdictCause;
    assert BufferInv(buffer, u, PlaceAfterClear(p));
    hide BufferInv;
    assert ConsumerInv(c, u, w, dev, PlaceAfterClear(p));
    hide ConsumerInv;
  }
}
