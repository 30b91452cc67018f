/**
 The device delivery protocol as a state machine.

 One device queue is served by a sequence of sessions (the Go userState objects), each with its own
 broker channel. The consumer goroutine, the readers of receipts, the timers and the cleanup of each
 session interleave freely. As in the code, taking an entry out of pendingAcks and settling its tag
 on the channel are separate steps.
 */
module Delivery {
  import opened Wrappers
  import opened Envelope
  import opened MultisetOfMap

  type Tag = nat

  datatype Delivered = Delivered(tag: Tag, msg: Message)

  /** Why a tag is settled. */
  datatype Cause =
    | BadBody
    | SourceEcho
    | NoTargets
    | NoWrite
    | Forwarded
    | ByReceipt(messageId: string)
    | ByTimeout(messageId: string)

  /** basic.ack, basic.nack without requeue, basic.nack with requeue. */
  datatype Action = Ack | Drop | Requeue

  function ActionOf(c: Cause): Action {
    match c
    case BadBody => Drop
    case SourceEcho | Forwarded | ByReceipt(_) => Ack
    case NoTargets | NoWrite | ByTimeout(_) => Requeue
  }

  datatype Settlement = Settlement(tag: Tag, cause: Cause)

  /** Where the consumer goroutine stands inside its loop and inside handleDelivery. */
  datatype Consumer =
    | Idle
    | Handling(delivery: Delivered)
    | Settling(settlement: Settlement)
    | Inserting(tag: Tag, messageId: string)
    | Exited

  datatype TimerState = Armed | Fired | Stopped | Done
  datatype Timer = Timer(messageId: string, state: TimerState)

  /** The points of Unregister and cleanupUserState that other goroutines can tell apart. */
  datatype Stage = Live | Detached | Cancelled | MapCleared | Closed

  /**
   A userState with its channel. A timer is named by the tag whose delivery created it.
   settled, faulted, written, overwritten and forgotten are history: the tags settled in order,
   whether a settlement was refused by the broker, the tags written to some socket, the tags whose
   pendingAcks entry a later delivery replaced, and those still in the map when cleanup cleared it.
   */
  datatype Session = Session(
    stage: Stage,
    nextTag: Tag,
    unacked: map<Tag, Message>,
    buffer: seq<Delivered>,
    consumer: Consumer,
    pending: map<string, Tag>,
    timers: map<Tag, Timer>,
    hands: multiset<Settlement>,
    settled: seq<Tag>,
    faulted: bool,
    written: set<Tag>,
    overwritten: set<Tag>,
    forgotten: set<Tag>)

  predicate PendingOpen(s: Session) {
    s.stage in {Live, Detached, Cancelled}
  }

  const NEW_SESSION := Session(Live, 1, map[], [], Idle, map[], map[], multiset{}, [], false, {}, {}, {})

  // ---- Steps inside one session

  /** The broker hands a message to the channel's consumer. */
  function Push(s: Session, m: Message): Session {
    s.(nextTag := s.nextTag + 1,
       unacked := s.unacked[s.nextTag := m],
       buffer := s.buffer + [Delivered(s.nextTag, m)])
  }

  function Take(s: Session): Session
    requires s.consumer.Idle? && s.buffer != []
  {
    s.(consumer := Handling(s.buffer[0]), buffer := s.buffer[1..])
  }

  datatype Verdict = Settle(cause: Cause) | Await(messageId: string)

  /** What handleDelivery decides, given the result of each socket write. */
  function Judge(deviceId: string, m: Message, writes: seq<bool>): Verdict {
    if m.body.Undecodable? then Settle(BadBody)
    else if IsEchoFor(m, deviceId) then Settle(SourceEcho)
    else if writes == [] then Settle(NoTargets)
    else if true !in writes then Settle(NoWrite)
    else if m.body.Payload? then Await(m.body.messageId)
    else Settle(Forwarded)
  }

  function Handle(s: Session, deviceId: string, writes: seq<bool>): Session
    requires s.consumer.Handling?
  {
    var d := s.consumer.delivery;
    match Judge(deviceId, d.msg, writes)
    case Settle(cause) =>
      s.(consumer := Settling(Settlement(d.tag, cause)),
         written := if cause == Forwarded then s.written + {d.tag} else s.written)
    case Await(id) =>
      s.(consumer := Inserting(d.tag, id), written := s.written + {d.tag})
  }

  /** Settling on a closed channel is a no-op; settling an unknown tag is a channel error. */
  function SettleTag(s: Session, tag: Tag): Session {
    if s.stage == Closed then s
    else if tag !in s.unacked then s.(faulted := true)
    else s.(unacked := s.unacked - {tag}, settled := s.settled + [tag])
  }

  function SettleByConsumer(s: Session): Session
    requires s.consumer.Settling?
  {
    SettleTag(s, s.consumer.settlement.tag).(consumer := Idle)
  }

  /** Arms the timer and stores the entry. The code would panic on a cleared map. */
  function Insert(s: Session): Session
    requires s.consumer.Inserting? && PendingOpen(s)
  {
    var tag, id := s.consumer.tag, s.consumer.messageId;
    s.(consumer := Idle,
       timers := s.timers[tag := Timer(id, Armed)],
       overwritten := if id in s.pending then s.overwritten + {s.pending[id]} else s.overwritten,
       pending := s.pending[id := tag])
  }

  function Fire(s: Session, timer: Tag): Session
    requires timer in s.timers && s.timers[timer].state == Armed
  {
    s.(timers := s.timers[timer := s.timers[timer].(state := Fired)])
  }

  /** The timer closure's critical section: it looks its message id up afresh. */
  function TakeByTimer(s: Session, timer: Tag): Session
    requires timer in s.timers && s.timers[timer].state == Fired
  {
    var id := s.timers[timer].messageId;
    var s' := s.(timers := s.timers[timer := Timer(id, Done)]);
    if id !in s.pending then s'
    else s'.(pending := s.pending - {id},
             hands := s.hands + multiset{Settlement(s.pending[id], ByTimeout(id))})
  }

  /** timer.Stop has no effect once the timer has fired. */
  function StopTimer(timers: map<Tag, Timer>, timer: Tag): map<Tag, Timer> {
    if timer in timers && timers[timer].state == Armed
    then timers[timer := timers[timer].(state := Stopped)] else timers
  }

  function TakeByReceipt(s: Session, id: string): Session {
    if id !in s.pending then s
    else s.(pending := s.pending - {id},
            timers := StopTimer(s.timers, s.pending[id]),
            hands := s.hands + multiset{Settlement(s.pending[id], ByReceipt(id))})
  }

  function SettleInHand(s: Session, x: Settlement): Session
    requires x in s.hands
  {
    SettleTag(s, x.tag).(hands := s.hands - multiset{x})
  }

  /** Stops the timers of the entries still in the map, and clears the map. */
  function ClearPending(s: Session): Session {
    s.(stage := MapCleared,
       timers := map t | t in s.timers ::
         if t in s.pending.Values && s.timers[t].state == Armed
         then s.timers[t].(state := Stopped) else s.timers[t],
       forgotten := s.forgotten + s.pending.Values,
       pending := map[])
  }

  /** Closing the channel makes the broker requeue all its unacked messages. */
  function CloseChannel(s: Session): Session {
    s.(stage := Closed, unacked := map[])
  }

  /** One atomic step of an actor of a session: broker, consumer, reader, timer or cleanup. */
  datatype Act =
    | BrokerPushes(msg: Message)
    | ConsumerTakes
    | ConsumerHandles(writes: seq<bool>)
    | ConsumerSettles
    | ConsumerInserts
    | ConsumerExits
    | ReceiptTakes(messageId: string)
    | TimerFires(timer: Tag)
    | TimerTakes(timer: Tag)
    | HandSettles(settlement: Settlement)
    | CancelsConsumer
    | ClearsPending
    | ClosesChannel

  predicate Can(s: Session, a: Act) {
    match a
    case BrokerPushes(_) => s.stage != Closed
    case ConsumerTakes => s.consumer.Idle? && s.buffer != []
    case ConsumerHandles(_) => s.consumer.Handling?
    case ConsumerSettles => s.consumer.Settling?
    case ConsumerInserts => s.consumer.Inserting? && PendingOpen(s)
    case ConsumerExits => s.consumer.Idle? && s.stage in {Cancelled, MapCleared, Closed}
    case ReceiptTakes(_) => true
    case TimerFires(t) => t in s.timers && s.timers[t].state == Armed
    case TimerTakes(t) => t in s.timers && s.timers[t].state == Fired
    case HandSettles(x) => x in s.hands
    case CancelsConsumer => s.stage == Detached
    case ClearsPending => s.stage == Cancelled
    case ClosesChannel => s.stage == MapCleared
  }

  function After(s: Session, deviceId: string, a: Act): Session
    requires Can(s, a)
  {
    match a
    case BrokerPushes(m) => Push(s, m)
    case ConsumerTakes => Take(s)
    case ConsumerHandles(writes) => Handle(s, deviceId, writes)
    case ConsumerSettles => SettleByConsumer(s)
    case ConsumerInserts => Insert(s)
    case ConsumerExits => s.(consumer := Exited)
    case ReceiptTakes(id) => TakeByReceipt(s, id)
    case TimerFires(t) => Fire(s, t)
    case TimerTakes(t) => TakeByTimer(s, t)
    case HandSettles(x) => SettleInHand(s, x)
    case CancelsConsumer => s.(stage := Cancelled)
    case ClearsPending => ClearPending(s)
    case ClosesChannel => CloseChannel(s)
  }

  // ---- What a step of a session does to the queue

  /** A permanent removal from the queue, with its reason. */
  datatype Removal = Removal(session: nat, tag: Tag, msg: Message, cause: Cause)

  function Pulled(a: Act): multiset<Message> {
    if a.BrokerPushes? then multiset{a.msg} else multiset{}
  }

  /** The settlement a step performs, if it performs one that reaches the broker. */
  function Settled(s: Session, a: Act): Option<Settlement>
    requires Can(s, a)
  {
    match a
    case ConsumerSettles =>
      if s.stage != Closed && s.consumer.settlement.tag in s.unacked then Some(s.consumer.settlement) else None
    case HandSettles(x) => if s.stage != Closed && x.tag in s.unacked then Some(x) else None
    case _ => None
  }

  ghost function Returned(s: Session, a: Act): multiset<Message>
    requires Can(s, a)
  {
    if a.ClosesChannel? then Values<Tag, Message>(s.unacked)
    else match Settled(s, a)
         case Some(x) => if ActionOf(x.cause) == Requeue then multiset{s.unacked[x.tag]} else multiset{}
         case None => multiset{}
  }

  function Removals(s: Session, sid: nat, a: Act): seq<Removal>
    requires Can(s, a)
  {
    match Settled(s, a)
    case Some(x) =>
      if ActionOf(x.cause) == Requeue then [] else [Removal(sid, x.tag, s.unacked[x.tag], x.cause)]
    case None => []
  }

  // ---- The whole system

  /**
   ready is the queue; enqueued, removed and receipts are history. lookups holds the readers that
   have found a session in the clients map and not yet looked at its pendingAcks.
   */
  datatype System = System(
    deviceId: string,
    enqueued: multiset<Message>,
    ready: multiset<Message>,
    removed: seq<Removal>,
    sessions: seq<Session>,
    current: Option<nat>,
    receipts: multiset<string>,
    lookups: multiset<(nat, string)>)

  function Init(deviceId: string): System {
    System(deviceId, multiset{}, multiset{}, [], [], None, multiset{}, multiset{})
  }

  datatype Label =
    | Publish(msg: Message)
    | Open
    | Detach
    | ReceiptArrives(messageId: string)
    | Do(sid: nat, act: Act)

  predicate Enabled(y: System, l: Label) {
    match l
    case Publish(_) => true
    case Open => y.current.None?
    case Detach => y.current.Some? && y.current.value < |y.sessions|
    case ReceiptArrives(_) => true
    case Do(sid, a) =>
      && sid < |y.sessions| && Can(y.sessions[sid], a) && Pulled(a) <= y.ready
      && (a.ReceiptTakes? ==> (sid, a.messageId) in y.lookups)
  }

  ghost function Step(y: System, l: Label): System
    requires Enabled(y, l)
  {
    match l
    case Publish(m) => y.(enqueued := y.enqueued + multiset{m}, ready := y.ready + multiset{m})
    case Open => y.(sessions := y.sessions + [NEW_SESSION], current := Some(|y.sessions|))
    case Detach =>
      var sid := y.current.value;
      y.(sessions := y.sessions[sid := y.sessions[sid].(stage := Stage.Detached)], current := None)
    case ReceiptArrives(id) =>
      y.(receipts := y.receipts + multiset{id},
         lookups := if y.current.Some? then y.lookups + multiset{(y.current.value, id)} else y.lookups)
    case Do(sid, a) =>
      var s := y.sessions[sid];
      y.(sessions := y.sessions[sid := After(s, y.deviceId, a)],
         ready := y.ready - Pulled(a) + Returned(s, a),
         removed := y.removed + Removals(s, sid, a),
         lookups := if a.ReceiptTakes? then y.lookups - multiset{(sid, a.messageId)} else y.lookups)
  }

  ghost predicate IsRun(y: System, ls: seq<Label>)
    decreases |ls|
  {
    ls == [] || (Enabled(y, ls[0]) && IsRun(Step(y, ls[0]), ls[1..]))
  }

  ghost function Exec(y: System, ls: seq<Label>): System
    requires IsRun(y, ls)
    decreases |ls|
  {
    if ls == [] then y else Exec(Step(y, ls[0]), ls[1..])
  }
}
