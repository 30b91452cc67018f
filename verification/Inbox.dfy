/** DrainInbox: replaying stored sender keys, then consuming the device queue up to a limit. */
module Inbox {
  import opened Wrappers
  import opened Envelope
  import opened SenderKeys

  const DEFAULT_DRAIN_LIMIT := 100
  const MAX_DRAIN_LIMIT := 500

  function Clamp(limit: int): (n: nat)
    ensures 1 <= n <= MAX_DRAIN_LIMIT
  {
    if limit <= 0 then DEFAULT_DRAIN_LIMIT
    else if limit > MAX_DRAIN_LIMIT then MAX_DRAIN_LIMIT
    else limit
  }

  /** Asked for a number in range, a drain uses it. */
  lemma ClampKeepsAsked(limit: int)
    ensures 1 <= limit <= 500 ==> Clamp(limit) == limit
    ensures limit <= 0 ==> Clamp(limit) == 100
    ensures limit > 500 ==> Clamp(limit) == 500
  {
  }

  /** The bodies a drain hands out: those that decode, in order. */
  function Decodable(ms: seq<Message>): seq<Body> {
    if ms == [] then []
    else Decodable(ms[..|ms| - 1]) + (if ms[|ms| - 1].body.Undecodable? then [] else [ms[|ms| - 1].body])
  }

  /** A message published to the user exchange. */
  datatype Sent = Sent(key: string, msg: Message)

  function DeliveredReceipt(user: string, p: Body): Sent
    requires p.Payload?
  {
    Sent(p.senderId, Message(Receipt(p.messageId, user, p.senderId, p.groupId, true), None))
  }

  /** The receipt for the i-th consumed message, if it is a payload and the publish succeeds. */
  function ReceiptAt(user: string, publishOk: nat -> bool, m: Message, i: nat): seq<Sent> {
    if m.body.Payload? && publishOk(i) then [DeliveredReceipt(user, m.body)] else []
  }

  /** The receipts for messages consumed from position i on. */
  function Receipts(user: string, publishOk: nat -> bool, ms: seq<Message>, i: nat): seq<Sent> {
    if ms == [] then [] else ReceiptAt(user, publishOk, ms[0], i) + Receipts(user, publishOk, ms[1..], i + 1)
  }

  /** What the user's own queues gain from publications: a direct exchange matches the whole key. */
  function Own(user: string, sent: seq<Sent>): seq<Message> {
    if sent == [] then []
    else Own(user, sent[..|sent| - 1]) + (if sent[|sent| - 1].key == user then [sent[|sent| - 1].msg] else [])
  }

  /** Outcomes of the broker calls: the i-th Get, and the publish after the i-th Get. */
  datatype Calls = Calls(getFails: nat -> bool, publishOk: nat -> bool)

  datatype Consumption = Consumption(consumed: seq<Message>, rest: seq<Message>, failed: bool)

  /** The loop from its i-th round on, over the queue as it then is. */
  function Consume(user: string, calls: Calls, limit: nat, queue: seq<Message>, i: nat): Consumption
    decreases limit - i
  {
    if i >= limit then Consumption([], queue, false)
    else if calls.getFails(i) then Consumption([], queue, true)
    else if queue == [] then Consumption([], [], false)
    else
      var later := Consume(user, calls, limit, queue[1..] + Own(user, ReceiptAt(user, calls.publishOk, queue[0], i)), i + 1);
      later.(consumed := [queue[0]] + later.consumed)
  }

  datatype Response = Failed | Drained(items: seq<Body>, hasMore: bool)

  /** The answer: the peek after a full response is the Get with the limit's number. */
  function Respond(calls: Calls, limit: nat, c: Consumption): Response {
    var items := Decodable(c.consumed);
    if c.failed then Failed
    else if |items| != limit then Drained(items, false)
    else if calls.getFails(limit) then Failed
    else Drained(items, c.rest != [])
  }

  // ---- Sequences

  lemma {:induction false} OwnConcat(user: string, a: seq<Sent>, b: seq<Sent>)
    ensures Own(user, a + b) == Own(user, a) + Own(user, b)
  {
    if b == [] {
      assert a + b == a;
    } else {
      assert (a + b)[..|a + b| - 1] == a + b[..|b| - 1];
      OwnConcat(user, a, b[..|b| - 1]);
    }
  }

  lemma {:induction false} DecodableContents(ms: seq<Message>, m: Message)
    requires m in ms && !m.body.Undecodable?
    ensures m.body in Decodable(ms)
  {
    var n := |ms| - 1;
    if m != ms[n] {
      assert ms == ms[..n] + [ms[n]];
      DecodableContents(ms[..n], m);
    }
  }

  lemma {:induction false} DecodableCount(ms: seq<Message>)
    ensures |Decodable(ms)| <= |ms|
    ensures |Decodable(ms)| == |ms| <==> forall m :: m in ms ==> !m.body.Undecodable?
  {
    if ms != [] {
      var n := |ms| - 1;
      assert ms == ms[..n] + [ms[n]];
      DecodableCount(ms[..n]);
    }
  }

  /** Handing out what decodes keeps the order and drops nothing else. */
  lemma {:induction false} DecodableSplits(a: seq<Message>, b: seq<Message>)
    ensures Decodable(a + b) == Decodable(a) + Decodable(b)
    ensures |a| == 1 ==> Decodable(a) == if a[0].body.Undecodable? then [] else [a[0].body]
  {
    if |a| == 1 {
      assert a[..0] == [];
    }
    if b == [] {
      assert a + b == a;
    } else {
      assert (a + b)[..|a + b| - 1] == a + b[..|b| - 1];
      DecodableSplits(a, b[..|b| - 1]);
    }
  }

  lemma OwnOne(user: string, s: Sent)
    ensures Own(user, [s]) == if s.key == user then [s.msg] else []
  {
    assert [s][..0] == [];
  }

  // ---- The loop

  /** Nothing is lost or invented: consumed and remaining are the queue with the own receipts behind it. */
  lemma {:induction false} ConsumeSplits(user: string, calls: Calls, limit: nat, queue: seq<Message>, i: nat)
    ensures var c := Consume(user, calls, limit, queue, i);
            c.consumed + c.rest == queue + Own(user, Receipts(user, calls.publishOk, c.consumed, i))
    decreases limit - i
  {
    var c := Consume(user, calls, limit, queue, i);
    if i < limit && !calls.getFails(i) && queue != [] {
      var receipt := ReceiptAt(user, calls.publishOk, queue[0], i);
      var queue' := queue[1..] + Own(user, receipt);
      ConsumeSplits(user, calls, limit, queue', i + 1);
      var later := Consume(user, calls, limit, queue', i + 1);
      assert c == later.(consumed := [queue[0]] + later.consumed) && c.consumed[1..] == later.consumed;
      var more := Receipts(user, calls.publishOk, later.consumed, i + 1);
      assert Receipts(user, calls.publishOk, c.consumed, i) == receipt + more;
      hide Consume, Own, Receipts, ReceiptAt;
      OwnConcat(user, receipt, more);
      Regroup(queue[0], later.consumed, later.rest, queue[1..], Own(user, receipt), Own(user, more));
      assert queue == [queue[0]] + queue[1..];
    } else {
      assert Receipts(user, calls.publishOk, [], i) == [];
      hide Receipts;
    }
  }

  lemma Regroup(m: Message, consumed: seq<Message>, rest: seq<Message>, tail: seq<Message>, a: seq<Message>, b: seq<Message>)
    requires consumed + rest == (tail + a) + b
    ensures ([m] + consumed) + rest == ([m] + tail) + (a + b)
  {
    assert ([m] + consumed) + rest == [m] + (consumed + rest);
    assert ([m] + tail) + (a + b) == [m] + ((tail + a) + b);
  }

  /** The loop stops at the limit, at an empty queue, or at a Get that fails, and at the first of these. */
  lemma {:induction false} ConsumeStops(user: string, calls: Calls, limit: nat, queue: seq<Message>, i: nat)
    requires i <= limit
    ensures var c := Consume(user, calls, limit, queue, i);
            && i + |c.consumed| <= limit
            && (!c.failed ==> i + |c.consumed| == limit || c.rest == [])
            && (c.failed <==> i + |c.consumed| < limit && calls.getFails(i + |c.consumed|))
    decreases limit - i
  {
    if i < limit && !calls.getFails(i) && queue != [] {
      ConsumeStops(user, calls, limit, queue[1..] + Own(user, ReceiptAt(user, calls.publishOk, queue[0], i)), i + 1);
    }
  }

  // ---- The whole drain

  /** The frames of the stored rows whose replay is published, in row order. */
  function Replay(recipient: string, rows: seq<StoredRow>, publishOk: nat -> bool): seq<Sent> {
    if rows == [] then []
    else
      var n := |rows| - 1;
      Replay(recipient, rows[..n], publishOk) + ReplayRow(recipient, rows[n], publishOk(n))
  }

  function ReplayRow(recipient: string, row: StoredRow, publishOk: bool): seq<Sent> {
    if publishOk then [Sent(recipient, Message(FrameOf(row.key, row.content), None))] else []
  }

  /** A drain splits the queue exactly, and hands out the decodable part of what it consumed. */
  lemma DrainIsExact(user: string, calls: Calls, limit: nat, queue: seq<Message>)
    ensures var c := Consume(user, calls, limit, queue, 0);
            var r := Respond(calls, limit, c);
            && c.consumed + c.rest == queue + Own(user, Receipts(user, calls.publishOk, c.consumed, 0))
            && |c.consumed| <= limit
            && (r.Drained? ==> r.items == Decodable(c.consumed) && |r.items| <= limit)
            && (r.Drained? && r.hasMore ==> c.rest != [])
  {
    ConsumeSplits(user, calls, limit, queue, 0);
    ConsumeStops(user, calls, limit, queue, 0);
    DecodableCount(Consume(user, calls, limit, queue, 0).consumed);
  }

  /** When messages remain, HasMore reports them exactly if every consumed message decoded. */
  lemma HasMoreIffAllDecoded(user: string, calls: Calls, limit: nat, queue: seq<Message>)
    requires Respond(calls, limit, Consume(user, calls, limit, queue, 0)).Drained?
    ensures var c := Consume(user, calls, limit, queue, 0);
            var r := Respond(calls, limit, c);
            c.rest != [] ==> (r.hasMore <==> forall m :: m in c.consumed ==> !m.body.Undecodable?)
  {
    ConsumeStops(user, calls, limit, queue, 0);
    DecodableCount(Consume(user, calls, limit, queue, 0).consumed);
  }

  /** A single undecodable message makes the smallest drain report an empty inbox that is not empty. */
  lemma HasMoreCanMiss(user: string, bad: string, m: Message)
    ensures var calls := Calls(_ => false, _ => true);
            var c := Consume(user, calls, 1, [Message(Undecodable(bad), None), m], 0);
            Respond(calls, 1, c) == Drained([], false) && c.rest == [m]
  {
    var calls := Calls(_ => false, _ => true);
    var queue := [Message(Undecodable(bad), None), m];
    assert queue[1..] + Own(user, ReceiptAt(user, calls.publishOk, queue[0], 0)) == [m];
    var c := Consume(user, calls, 1, queue, 0);
    assert c == Consumption([queue[0]] + [], [m], false);
    assert c.consumed[..0] == [] && Decodable([queue[0]][..0]) == [];
  }

  /** The Get after n consumed messages is made by the loop, or as the peek when all of the limit decoded. */
  predicate GetsAgain(limit: nat, consumed: seq<Message>) {
    |consumed| < limit || forall m :: m in consumed ==> !m.body.Undecodable?
  }

  /** A drain fails exactly when the Get after its last consumed message is made and fails. */
  lemma DrainFailsIff(user: string, calls: Calls, limit: nat, queue: seq<Message>)
    ensures var c := Consume(user, calls, limit, queue, 0);
            Respond(calls, limit, c).Failed? <==> GetsAgain(limit, c.consumed) && calls.getFails(|c.consumed|)
  {
    ConsumeStops(user, calls, limit, queue, 0);
    DecodableCount(Consume(user, calls, limit, queue, 0).consumed);
  }

  /** A run in which every Get that the drain can make succeeds. */
  predicate GetsSucceed(calls: Calls, limit: nat) {
    forall k: nat :: k <= limit ==> !calls.getFails(k)
  }

  /**
   A message that was consumed, hence acked, and that decodes is handed out exactly unless the next Get is
   made and fails. In particular it is when no Get up to the peek fails.
   */
  lemma ConsumedIsReturnedIff(user: string, calls: Calls, limit: nat, queue: seq<Message>, m: Message)
    requires m in Consume(user, calls, limit, queue, 0).consumed && !m.body.Undecodable?
    ensures var c := Consume(user, calls, limit, queue, 0);
            var r := Respond(calls, limit, c);
            && ((r.Drained? && m.body in r.items) <==> !(GetsAgain(limit, c.consumed) && calls.getFails(|c.consumed|)))
            && (GetsSucceed(calls, limit) ==> r.Drained? && m.body in r.items)
  {
    ConsumeStops(user, calls, limit, queue, 0);
    DrainFailsIff(user, calls, limit, queue);
    DecodableContents(Consume(user, calls, limit, queue, 0).consumed, m);
  }

  /** The second Get fails: the first message was acked, is gone from the queue, and is not handed out. */
  lemma GetErrorLosesMessage(user: string, m: Message)
    requires !m.body.Undecodable?
    ensures var calls := Calls(k => k == 1, _ => false);
            var c := Consume(user, calls, 2, [m], 0);
            c.consumed == [m] && c.rest == [] && Respond(calls, 2, c) == Failed
  {
    var calls := Calls(k => k == 1, _ => false);
    assert [m][1..] + Own(user, ReceiptAt(user, calls.publishOk, m, 0)) == [];
    assert Consume(user, calls, 2, [], 1) == Consumption([], [], true);
  }

  // ---- The receipts a drain sends

  /** A DELIVERED receipt from the user, for the payload's message, routed to its sender. */
  predicate Answers(user: string, s: Sent, m: Message) {
    && m.body.Payload? && s.msg.body.Receipt? && s.msg.source == None
    && s.key == m.body.senderId && s.msg.body.receiverId == m.body.senderId
    && s.msg.body.messageId == m.body.messageId && s.msg.body.groupId == m.body.groupId
    && s.msg.body.senderId == user && s.msg.body.delivered
  }

  /** The consumed payloads whose publish succeeds. */
  function Answerable(publishOk: nat -> bool, ms: seq<Message>): set<nat> {
    set k: nat | k < |ms| && ms[k].body.Payload? && publishOk(k)
  }

  lemma ReceiptAnswers(user: string, publishOk: nat -> bool, m: Message, i: nat)
    ensures var sent := ReceiptAt(user, publishOk, m, i);
            if m.body.Payload? && publishOk(i) then |sent| == 1 && Answers(user, sent[0], m) else sent == []
  {
  }

  lemma AnswerableCount(publishOk: nat -> bool, ms: seq<Message>, m: Message)
    ensures |Answerable(publishOk, ms + [m])| == |Answerable(publishOk, ms)| + if m.body.Payload? && publishOk(|ms|) then 1 else 0
  {
    var n := |ms|;
    var known, before := Answerable(publishOk, ms + [m]), Answerable(publishOk, ms);
    if m.body.Payload? && publishOk(n) {
      assert known == before + {n};
    } else {
      assert known == before;
    }
  }

  lemma {:induction false} ReceiptsCount(user: string, publishOk: nat -> bool, ms: seq<Message>)
    ensures |Receipts(user, publishOk, ms, 0)| == |Answerable(publishOk, ms)|
  {
    if ms == [] {
      assert Answerable(publishOk, ms) == {};
    } else {
      hide *;
      var n := |ms| - 1;
      ReceiptsCount(user, publishOk, ms[..n]);
      assert ms == ms[..n] + [ms[n]];
      AppendReceipt(user, publishOk, ms[..n], ms[n], 0);
      ReceiptAnswers(user, publishOk, ms[n], n);
      AnswerableCount(publishOk, ms[..n], ms[n]);
    }
  }

  lemma {:induction false} PayloadIsAnswered(user: string, publishOk: nat -> bool, ms: seq<Message>, k: nat)
    requires k in Answerable(publishOk, ms)
    ensures exists s :: s in Receipts(user, publishOk, ms, 0) && Answers(user, s, ms[k])
  {
    var n := |ms| - 1;
    assert ms == ms[..n] + [ms[n]];
    AppendReceipt(user, publishOk, ms[..n], ms[n], 0);
    var last := ReceiptAt(user, publishOk, ms[n], n);
    ReceiptAnswers(user, publishOk, ms[n], n);
    if k < n {
      PayloadIsAnswered(user, publishOk, ms[..n], k);
      hide Receipts, ReceiptAt, Answers;
      var s :| s in Receipts(user, publishOk, ms[..n], 0) && Answers(user, s, ms[..n][k]);
      assert s in Receipts(user, publishOk, ms, 0) && Answers(user, s, ms[k]);
    } else {
      hide Receipts, ReceiptAt, Answers;
      assert last[0] in last;
      assert last[0] in Receipts(user, publishOk, ms, 0) && Answers(user, last[0], ms[k]);
    }
  }

  lemma {:induction false} ReceiptHasPayload(user: string, publishOk: nat -> bool, ms: seq<Message>, s: Sent)
    requires s in Receipts(user, publishOk, ms, 0)
    ensures exists k :: k in Answerable(publishOk, ms) && Answers(user, s, ms[k])
  {
    var n := |ms| - 1;
    assert ms == ms[..n] + [ms[n]];
    AppendReceipt(user, publishOk, ms[..n], ms[n], 0);
    ReceiptAnswers(user, publishOk, ms[n], n);
    var before := Receipts(user, publishOk, ms[..n], 0);
    if s in before {
      ReceiptHasPayload(user, publishOk, ms[..n], s);
      hide Receipts, ReceiptAt, Answers;
      var k :| k in Answerable(publishOk, ms[..n]) && Answers(user, s, ms[..n][k]);
      assert k in Answerable(publishOk, ms) && Answers(user, s, ms[k]);
    } else {
      hide Receipts, ReceiptAt, Answers;
      assert n in Answerable(publishOk, ms) && Answers(user, s, ms[n]);
    }
  }

  /** Every consumed payload whose publish succeeds is answered once, to its sender, and nothing else is sent. */
  lemma DrainAnswersPayloads(user: string, publishOk: nat -> bool, ms: seq<Message>)
    ensures var sent := Receipts(user, publishOk, ms, 0);
            && |sent| == |Answerable(publishOk, ms)|
            && (forall k :: k in Answerable(publishOk, ms) ==> exists s :: s in sent && Answers(user, s, ms[k]))
            && (forall s :: s in sent ==> exists k :: k in Answerable(publishOk, ms) && Answers(user, s, ms[k]))
  {
    hide Receipts, Answers;
    ReceiptsCount(user, publishOk, ms);
    forall k | k in Answerable(publishOk, ms) ensures exists s :: s in Receipts(user, publishOk, ms, 0) && Answers(user, s, ms[k]) {
      PayloadIsAnswered(user, publishOk, ms, k);
    }
    forall s | s in Receipts(user, publishOk, ms, 0) ensures exists k :: k in Answerable(publishOk, ms) && Answers(user, s, ms[k]) {
      ReceiptHasPayload(user, publishOk, ms, s);
    }
  }

  // ---- Stored sender keys reach the device

  lemma {:induction false} ReplayContents(recipient: string, rows: seq<StoredRow>, publishOk: nat -> bool, k: nat)
    requires k < |rows| && publishOk(k)
    ensures Message(FrameOf(rows[k].key, rows[k].content), None) in Own(recipient, Replay(recipient, rows, publishOk))
  {
    var n := |rows| - 1;
    var front := Replay(recipient, rows[..n], publishOk);
    var last := ReplayRow(recipient, rows[n], publishOk(n));
    OwnConcat(recipient, front, last);
    if k < n {
      ReplayContents(recipient, rows[..n], publishOk, k);
    } else {
      assert last[..0] == [];
      assert Own(recipient, last) == [last[0].msg];
    }
  }

  /**
   After any history of distributions, each key stored for the recipient whose row the replay publishes is,
   with its last content, among the items of the next drain or still in the queue.
   */
  lemma StoredKeysAreDelivered(parse: string -> Option<string>, ds: seq<Distribution>, user: string, rows: seq<StoredRow>,
                               replayOk: nat -> bool, calls: Calls, limit: nat, queue: seq<Message>, key: Key, i: nat)
    requires IsLast(parse, ds, key, i) && key.recipient == user && IsListing(TableAfter(parse, ds), user, rows)
    requires forall k: nat :: k < |rows| && rows[k].key == key ==> replayOk(k)
    requires var queue' := queue + Own(user, Replay(user, rows, replayOk));
             Respond(calls, limit, Consume(user, calls, limit, queue', 0)).Drained?
    ensures var queue' := queue + Own(user, Replay(user, rows, replayOk));
            var c := Consume(user, calls, limit, queue', 0);
            var sent := ds[i].frame;
            var frame := KeyDistribution(key.group, key.senderUser, key.senderDevice, key.recipient, "", sent.skdm, sent.nonce);
            frame in Respond(calls, limit, c).items || Message(frame, None) in c.rest
  {
    TableHoldsLast(parse, ds, key);
    var row := StoredRow(key, ContentOf(ds[i]));
    assert row in rows;
    var k :| 0 <= k < |rows| && rows[k] == row;
    ReplayContents(user, rows, replayOk, k);
    var m := Message(FrameOf(key, ContentOf(ds[i])), None);
    var queue' := queue + Own(user, Replay(user, rows, replayOk));
    assert m in queue';
    ConsumeSplits(user, calls, limit, queue', 0);
    var c := Consume(user, calls, limit, queue', 0);
    hide Consume, Own, Replay, Receipts, Decodable;
    assert m in c.consumed + c.rest;
    if m in c.consumed {
      DecodableContents(c.consumed, m);
    }
  }

  // ---- The service, working on the queue in place

  class MessageService {
    const user: string
    var queue: seq<Message>
    ghost var sent: seq<Sent>

    constructor (user: string, queue: seq<Message>)
      ensures this.user == user && this.queue == queue && sent == []
    {
      this.user, this.queue, sent := user, queue, [];
    }

    /** The exchange appends to the user's own queue if the key is the user's. */
    method Publish(s: Sent)
      modifies this
      ensures queue == old(queue) + Own(user, [s]) && sent == old(sent) + [s]
    {
      assert [s][..0] == [];
      if s.key == user {
        queue := queue + [s.msg];
      }
      sent := sent + [s];
    }

    method RepublishStoredSKDMs(rows: seq<StoredRow>, publishOk: nat -> bool)
      modifies this
      ensures queue == old(queue) + Own(user, Replay(user, rows, publishOk))
      ensures sent == old(sent) + Replay(user, rows, publishOk)
    {
      hide *;
      ReplayNext(user, rows, publishOk, 0);
      for n := 0 to |rows|
        invariant queue == old(queue) + Own(user, Replay(user, rows[..n], publishOk))
        invariant sent == old(sent) + Replay(user, rows[..n], publishOk)
      {
        ReplayNext(user, rows, publishOk, n);
        if publishOk(n) {
          Publish(Sent(user, Message(FrameOf(rows[n].key, rows[n].content), None)));
        }
      }
      assert rows[..|rows|] == rows;
    }

    /** One round of the loop: take the head, and answer a payload with a receipt. */
    method ConsumeOne(publishOk: nat -> bool, i: nat) returns (delivery: Message)
      requires queue != []
      modifies this
      ensures delivery == old(queue[0])
      ensures queue == old(queue[1..]) + Own(user, ReceiptAt(user, publishOk, delivery, i))
      ensures sent == old(sent) + ReceiptAt(user, publishOk, delivery, i)
    {
      delivery := queue[0];
      queue := queue[1..];
      if delivery.body.Payload? && publishOk(i) {
        Publish(DeliveredReceipt(user, delivery.body));
      }
    }

    /**
     ready says that the ids parse and that provisioning and opening the channel succeed. rows are the
     stored rows, or none if listing them fails.
     */
    method DrainInbox(limit: int, ready: bool, rows: seq<StoredRow>, replayOk: nat -> bool, calls: Calls)
      returns (r: Response)
      modifies this
      ensures !ready ==> r == Failed && queue == old(queue) && sent == old(sent)
      ensures ready ==>
        var replay := Replay(user, rows, replayOk);
        var c := Consume(user, calls, Clamp(limit), old(queue) + Own(user, replay), 0);
        && r == Respond(calls, Clamp(limit), c)
        && queue == c.rest
        && sent == old(sent) + replay + Receipts(user, calls.publishOk, c.consumed, 0)
    {
      if !ready {
        return Failed;
      }
      RepublishStoredSKDMs(rows, replayOk);
      var n := Clamp(limit);
      var items := [];
      ghost var queue0, sent0 := queue, sent;
      ghost var whole := Consume(user, calls, n, queue0, 0);
      ghost var consumed: seq<Message> := [];
      var i := 0;
      ConsumeEnds(user, calls, n);
      assert queue0 == old(queue) + Own(user, Replay(user, rows, replayOk));
      assert Decodable([]) == [] && sent0 + Receipts(user, calls.publishOk, [], 0) == sent0;
      hide Consume, Own, Receipts, ReceiptAt, Decodable, Replay;
      while i < n
        invariant 0 <= i <= n && |consumed| == i
        invariant whole == Continue(consumed, Consume(user, calls, n, queue, i))
        invariant items == Decodable(consumed)
        invariant sent == sent0 + Receipts(user, calls.publishOk, consumed, 0)
      {
        if calls.getFails(i) {
          assert whole == Consumption(consumed, queue, true);
          return Failed;
        }
        if queue == [] {
          break;
        }
        ConsumeStep(user, calls, n, queue, i);
        AppendReceipt(user, calls.publishOk, consumed, queue[0], 0);
        ghost var next := queue[1..] + Own(user, ReceiptAt(user, calls.publishOk, queue[0], i));
        ContinueTwice(consumed, [queue[0]], Consume(user, calls, n, next, i + 1));
        AppendDecodable(consumed, queue[0]);
        consumed := consumed + [queue[0]];
        var delivery := ConsumeOne(calls.publishOk, i);
        if !delivery.body.Undecodable? {
          items := items + [delivery.body];
        }
        i := i + 1;
      }
      assert whole == Consumption(consumed, queue, false);
      if |items| == n {
        if calls.getFails(n) {
          return Failed;
        }
        return Drained(items, queue != []);
      }
      return Drained(items, false);
    }
  }

  /** What the n-th turn of the replay adds to the publications and to the own queue. */
  lemma ReplayNext(user: string, rows: seq<StoredRow>, publishOk: nat -> bool, n: nat)
    requires n <= |rows|
    ensures n == 0 ==> Replay(user, rows[..n], publishOk) == [] && Own(user, []) == []
    ensures n < |rows| ==>
      var sent := if publishOk(n) then [Sent(user, Message(FrameOf(rows[n].key, rows[n].content), None))] else [];
      && Replay(user, rows[..n + 1], publishOk) == Replay(user, rows[..n], publishOk) + sent
      && Own(user, Replay(user, rows[..n + 1], publishOk)) == Own(user, Replay(user, rows[..n], publishOk)) + Own(user, sent)
  {
    if n < |rows| {
      assert rows[..n + 1][..n] == rows[..n];
      OwnConcat(user, Replay(user, rows[..n], publishOk), ReplayRow(user, rows[n], publishOk(n)));
      hide Own;
    }
  }

  function Continue(consumed: seq<Message>, later: Consumption): Consumption {
    later.(consumed := consumed + later.consumed)
  }

  lemma ContinueTwice(a: seq<Message>, b: seq<Message>, later: Consumption)
    ensures Continue(a, Continue(b, later)) == Continue(a + b, later)
  {
    assert a + (b + later.consumed) == (a + b) + later.consumed;
  }

  lemma ConsumeStep(user: string, calls: Calls, limit: nat, queue: seq<Message>, i: nat)
    requires i < limit && !calls.getFails(i) && queue != []
    ensures Consume(user, calls, limit, queue, i) == Continue([queue[0]],
              Consume(user, calls, limit, queue[1..] + Own(user, ReceiptAt(user, calls.publishOk, queue[0], i)), i + 1))
  {
  }

  /** The three ways out of the loop. */
  lemma ConsumeEnds(user: string, calls: Calls, limit: nat)
    ensures forall queue :: Consume(user, calls, limit, queue, limit) == Consumption([], queue, false)
    ensures forall queue, i: nat :: i < limit && calls.getFails(i) ==>
              Consume(user, calls, limit, queue, i) == Consumption([], queue, true)
    ensures forall i: nat :: i < limit && !calls.getFails(i) ==> Consume(user, calls, limit, [], i) == Consumption([], [], false)
  {
  }

  lemma AppendDecodable(ms: seq<Message>, m: Message)
    ensures Decodable(ms + [m]) == Decodable(ms) + (if m.body.Undecodable? then [] else [m.body])
  {
    assert (ms + [m])[..|ms|] == ms;
  }

  lemma {:induction false} AppendReceipt(user: string, publishOk: nat -> bool, ms: seq<Message>, m: Message, i: nat)
    ensures Receipts(user, publishOk, ms + [m], i) == Receipts(user, publishOk, ms, i) + ReceiptAt(user, publishOk, m, i + |ms|)
  {
    if ms == [] {
      assert [m][1..] == [];
      assert ms + [m] == [m];
    } else {
      AppendReceipt(user, publishOk, ms[1..], m, i + 1);
      assert (ms + [m])[1..] == ms[1..] + [m];
    }
  }
}
