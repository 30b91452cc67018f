/** How payloads from a socket reach the device queues. */
module Fanout {
  import opened Wrappers
  import opened Envelope
  import opened Topology
  import opened Groups
  import opened GroupCoherence
  import Delivery

  // ---- The exchanges

  /** A message on the direct exchange shade.user or the topic exchange shade.group. */
  datatype Publication =
    | ToUser(key: string, msg: Message)
    | ToGroup(routingKey: string, msg: Message)

  /** A queue gets one copy of a publication, however many of its bindings match. */
  ghost predicate Routes(w: World, p: Publication, q: Queue) {
    match p
    case ToUser(key, _) => q in w.userBound && key == q.user
    case ToGroup(rk, _) => exists g :: (q, g) in w.bound && TopicMatches(Words(GroupRoutingKey(g)), Words(rk))
  }

  /** What a queue gains from publications, in order. */
  ghost function Received(w: World, ps: seq<Publication>, q: Queue): seq<Message> {
    if ps == [] then []
    else Received(w, ps[..|ps| - 1], q) + (if Routes(w, ps[|ps| - 1], q) then [ps[|ps| - 1].msg] else [])
  }

  // ---- The handlers

  /** uuid.Parse followed by String(): a canonical id is its own spelling. */
  ghost predicate IsUuidParser(parse: string -> Option<string>) {
    && (forall s :: parse(s).Some? ==> IsCanonicalUuid(parse(s).value))
    && (forall s :: IsCanonicalUuid(s) ==> parse(s) == Some(s))
  }

  function Tagged(body: Body, sourceDevice: string): Message {
    Message(body, if sourceDevice != "" then Some(sourceDevice) else None)
  }

  /** Routed by the group id as the client spelled it, authorised by the parsed one. */
  function GroupPayload(w: World, parse: string -> Option<string>, sender: string, device: string, body: Body,
                        groupOk: bool, echoOk: bool): seq<Publication>
    requires body.Payload?
  {
    var group, user := parse(body.groupId), parse(sender);
    if group == None || user == None || !IsMember(w, group.value, user.value) || !groupOk then []
    else [ToGroup(GroupRoutingKey(body.groupId), Tagged(body, device))]
         + (if echoOk then [ToUser(sender, Tagged(body, device))] else [])
  }

  function DirectPayload(sender: string, device: string, body: Body, sendOk: bool, echoOk: bool): seq<Publication>
    requires body.Payload?
  {
    if body.receiverId == "" then []
    else (if sendOk then [ToUser(body.receiverId, Message(body, None))] else [])
         + (if echoOk then [ToUser(sender, Tagged(body, device))] else [])
  }

  // ---- How many copies arrive

  lemma ReceivedPair(w: World, a: Publication, b: Publication, q: Queue)
    ensures Received(w, [a], q) == if Routes(w, a, q) then [a.msg] else []
    ensures Received(w, [a, b], q) == Received(w, [a], q) + (if Routes(w, b, q) then [b.msg] else [])
  {
    assert [a][..0] == [] && [a, b][..1] == [a];
  }

  /** A group publication reaches a queue exactly if the queue is bound and the key is canonical. */
  lemma GroupRoute(w: World, rkGroup: string, m: Message, q: Queue, group: Id)
    requires forall q', g :: (q', g) in w.bound ==> IsCanonicalUuid(g)
    requires rkGroup == group || !IsCanonicalUuid(rkGroup)
    ensures Routes(w, ToGroup(GroupRoutingKey(rkGroup), m), q) <==> rkGroup == group && (q, group) in w.bound
  {
    hide TopicMatches, Words;
    var p := ToGroup(GroupRoutingKey(rkGroup), m);
    if Routes(w, p, q) {
      var g :| (q, g) in w.bound && TopicMatches(Words(GroupRoutingKey(g)), Words(p.routingKey));
      GroupBindingMatches(g, rkGroup);
    }
    if rkGroup == group && (q, group) in w.bound {
      GroupBindingMatches(group, rkGroup);
    }
  }

  /** What the header of a copy says: the sending device, if it is known. */
  predicate IsTaggedCopy(m: Message, body: Body, device: string) {
    m.body == body && m.source == if device != "" then Some(device) else None
  }

  /** Nothing of a group payload is published for anybody but a member of the group that its id names. */
  lemma OnlyMembersPublish(w: World, parse: string -> Option<string>, sender: string, device: string, body: Body,
                           groupOk: bool, echoOk: bool, q: Queue)
    requires body.Payload? && Received(w, GroupPayload(w, parse, sender, device, body, groupOk, echoOk), q) != []
    ensures parse(body.groupId).Some? && parse(sender).Some?
    ensures Row(parse(body.groupId).value, parse(sender).value) in w.rows && groupOk
  {
    assert Received(w, [], q) == [];
  }

  /** Which copies of a member's group payload arrive, when the publish or the echo may fail. */
  lemma GroupPayloadUnderFailures(w: World, parse: string -> Option<string>, sender: string, device: string, body: Body,
                                  groupOk: bool, echoOk: bool, q: Queue)
    requires Exact(w) && q in w.provisioned && forall q', g :: (q', g) in w.bound ==> IsCanonicalUuid(g)
    requires IsUuidParser(parse) && IsCanonicalUuid(sender) && body.Payload? && parse(body.groupId).Some?
    requires IsMember(w, parse(body.groupId).value, sender)
    ensures var group := parse(body.groupId).value;
            var copies := Received(w, GroupPayload(w, parse, sender, device, body, groupOk, echoOk), q);
            && |copies| == One(groupOk && body.groupId == group && IsMember(w, group, q.user))
                           + One(groupOk && echoOk && q.user == sender)
            && forall m :: m in copies ==> IsTaggedCopy(m, body, device)
  {
    var group := parse(body.groupId).value;
    var a, b := ToGroup(GroupRoutingKey(body.groupId), Tagged(body, device)), ToUser(sender, Tagged(body, device));
    var ps := GroupPayload(w, parse, sender, device, body, groupOk, echoOk);
    assert ps == if !groupOk then [] else if echoOk then [a, b] else [a];
    ReceivedPair(w, a, b, q);
    assert Received(w, [], q) == [];
    GroupRoute(w, body.groupId, Tagged(body, device), q, group);
    hide Received, GroupPayload, TopicMatches, Words;
  }

  /**
   An accepted group payload: one copy for each device of a member if the client spelled the group id
   canonically, and one more for each device of the sender; so two for the sender's, one for the others'.
   */
  lemma GroupPayloadCopies(w: World, parse: string -> Option<string>, sender: string, device: string, body: Body, q: Queue)
    requires Exact(w) && q in w.provisioned && forall q', g :: (q', g) in w.bound ==> IsCanonicalUuid(g)
    requires IsUuidParser(parse) && IsCanonicalUuid(sender) && body.Payload? && parse(body.groupId).Some?
    requires IsMember(w, parse(body.groupId).value, sender)
    ensures var group := parse(body.groupId).value;
            var copies := Received(w, GroupPayload(w, parse, sender, device, body, true, true), q);
            && |copies| == One(body.groupId == group && IsMember(w, group, q.user)) + One(q.user == sender)
            && forall m :: m in copies ==> m == Tagged(body, device)
  {
    GroupPayloadUnderFailures(w, parse, sender, device, body, true, true, q);
    hide Received, GroupPayload, Exact;
  }

  /** A parser that also takes a UUID between any two characters, as in braces. */
  function BracedParse(s: string): Option<string> {
    if IsCanonicalUuid(s) then Some(s)
    else if |s| == 38 && IsCanonicalUuid(s[1..37]) then Some(s[1..37])
    else None
  }

  /** A member who writes the group id in braces is authorised, and reaches nobody but the own devices. */
  lemma BracedGroupIsNotRouted(w: World, sender: string, device: string, body: Body, group: Id, q: Queue)
    requires Exact(w) && q in w.provisioned && forall q', g :: (q', g) in w.bound ==> IsCanonicalUuid(g)
    requires IsCanonicalUuid(sender) && IsCanonicalUuid(group) && IsMember(w, group, sender)
    requires body.Payload? && body.groupId == "{" + group + "}"
    ensures IsUuidParser(BracedParse) && BracedParse(body.groupId) == Some(group)
    ensures |Received(w, GroupPayload(w, BracedParse, sender, device, body, true, true), q)| == One(q.user == sender)
  {
    assert body.groupId[1..37] == group;
    GroupPayloadCopies(w, BracedParse, sender, device, body, q);
    hide Received, GroupPayload, Exact;
  }

  /** No queue of an outsider gains anything, provisioned or not. */
  lemma OutsidersReceiveNothing(w: World, parse: string -> Option<string>, sender: string, device: string, body: Body,
                                groupOk: bool, echoOk: bool, q: Queue)
    requires Coherent(w) && forall q', g :: (q', g) in w.bound ==> IsCanonicalUuid(g)
    requires IsUuidParser(parse) && IsCanonicalUuid(sender) && body.Payload?
    requires parse(body.groupId).Some? ==> !IsMember(w, parse(body.groupId).value, q.user)
    ensures Received(w, GroupPayload(w, parse, sender, device, body, groupOk, echoOk), q) == []
  {
    var ps := GroupPayload(w, parse, sender, device, body, groupOk, echoOk);
    if ps != [] {
      var group := parse(body.groupId).value;
      var a, b := ToGroup(GroupRoutingKey(body.groupId), Tagged(body, device)), ToUser(sender, Tagged(body, device));
      ReceivedPair(w, a, b, q);
      GroupRoute(w, body.groupId, Tagged(body, device), q, group);
      assert ps == [a] || ps == [a, b];
      hide Received, GroupPayload, TopicMatches, Words;
      assert q.user != sender;
    }
  }

  /** A direct payload: one copy for each device of the receiver and one for each of the sender. */
  lemma DirectPayloadCopies(w: World, sender: string, device: string, body: Body, q: Queue)
    requires q in w.userBound && body.Payload? && body.receiverId != ""
    ensures Received(w, DirectPayload(sender, device, body, true, true), q)
         == (if q.user == body.receiverId then [Message(body, None)] else [])
            + (if q.user == sender then [Tagged(body, device)] else [])
  {
    var a, b := ToUser(body.receiverId, Message(body, None)), ToUser(sender, Tagged(body, device));
    ReceivedPair(w, a, b, q);
    assert DirectPayload(sender, device, body, true, true) == [a, b];
  }

  /** The two publishes of a direct payload fail or succeed on their own; without a receiver there is neither. */
  lemma DirectPayloadUnderFailures(w: World, sender: string, device: string, body: Body, sendOk: bool, echoOk: bool, q: Queue)
    requires q in w.userBound && body.Payload?
    ensures var named := body.receiverId != "";
            var source := if device != "" then Some(device) else None;
            var copies := Received(w, DirectPayload(sender, device, body, sendOk, echoOk), q);
            copies == (if named && sendOk && q.user == body.receiverId then [Message(body, None)] else [])
                      + (if named && echoOk && q.user == sender then [Message(body, source)] else [])
  {
    var a, b := ToUser(body.receiverId, Message(body, None)), ToUser(sender, Tagged(body, device));
    ReceivedPair(w, a, b, q);
    ReceivedPair(w, b, b, q);
    assert Received(w, [], q) == [];
    var ps := DirectPayload(sender, device, body, sendOk, echoOk);
    var sent, echoed := if sendOk then [a] else [], if echoOk then [b] else [];
    assert ps == if body.receiverId == "" then [] else sent + echoed;
  }

  // ---- What the consumers do with the copies

  lemma CanonicalIsTrimmed(s: string)
    requires IsCanonicalUuid(s)
    ensures TrimSpace(s) == s
  {
    assert IsHexLower(s[0]) && IsHexLower(s[35]);
    assert !IsSpace(s[0]) && !IsSpace(s[35]);
  }

  /** The sending device swallows every tagged copy; any other device forwards it and awaits a receipt. */
  lemma TaggedCopyIsForwardedElsewhere(body: Body, device: string, reader: string, writes: seq<bool>)
    requires IsCanonicalUuid(device) && body.Payload? && true in writes
    ensures Delivery.Judge(reader, Tagged(body, device), writes)
         == if reader == device then Delivery.Settle(Delivery.SourceEcho) else Delivery.Await(body.messageId)
  {
    CanonicalIsTrimmed(device);
  }

  /** Over the socket path the sender's own device forwards none of the copies of its group payload. */
  lemma SendingDeviceForwardsNone(w: World, parse: string -> Option<string>, sender: string, device: string, body: Body,
                                  writes: seq<bool>, m: Message)
    requires Exact(w) && Queue(sender, device) in w.provisioned && forall q', g :: (q', g) in w.bound ==> IsCanonicalUuid(g)
    requires IsUuidParser(parse) && IsCanonicalUuid(sender) && IsCanonicalUuid(device) && body.Payload?
    requires parse(body.groupId).Some? && IsMember(w, parse(body.groupId).value, sender) && true in writes
    requires m in Received(w, GroupPayload(w, parse, sender, device, body, true, true), Queue(sender, device))
    ensures Delivery.Judge(device, m, writes) == Delivery.Settle(Delivery.SourceEcho)
  {
    GroupPayloadCopies(w, parse, sender, device, body, Queue(sender, device));
    TaggedCopyIsForwardedElsewhere(body, device, device, writes);
    hide Received, GroupPayload;
  }

  // ---- The handlers as they run

  class PayloadHandler {
    var published: seq<Publication>

    constructor ()
      ensures published == []
    {
      published := [];
    }

    /** publishToUser; an unset source device sets no header. */
    method PublishToUser(receiver: string, body: Body, sourceDevice: string, ok: bool)
      modifies this
      ensures published == old(published) + if ok then [ToUser(receiver, Tagged(body, sourceDevice))] else []
    {
      if ok {
        published := published + [ToUser(receiver, Tagged(body, sourceDevice))];
      }
    }

    /** publishToGroup returns its error; the caller stops on one. */
    method PublishToGroup(group: string, body: Body, sourceDevice: string, ok: bool) returns (sent: bool)
      modifies this
      ensures sent == ok
      ensures published == old(published) + if ok then [ToGroup(GroupRoutingKey(group), Tagged(body, sourceDevice))] else []
    {
      if ok {
        published := published + [ToGroup(GroupRoutingKey(group), Tagged(body, sourceDevice))];
      }
      return ok;
    }

    method HandleGroupPayload(w: World, parse: string -> Option<string>, sender: string, device: string, body: Body,
                              groupOk: bool, echoOk: bool)
      requires body.Payload?
      modifies this
      ensures published == old(published) + GroupPayload(w, parse, sender, device, body, groupOk, echoOk)
    {
      var group := parse(body.groupId);
      if group.None? {
        return;
      }
      var user := parse(sender);
      if user.None? {
        return;
      }
      if !IsMember(w, group.value, user.value) {
        return;
      }
      var sent := PublishToGroup(body.groupId, body, device, groupOk);
      if !sent {
        return;
      }
      PublishToUser(sender, body, device, echoOk);
    }

    method HandleDirectPayload(sender: string, device: string, body: Body, sendOk: bool, echoOk: bool)
      requires body.Payload?
      modifies this
      ensures published == old(published) + DirectPayload(sender, device, body, sendOk, echoOk)
    {
      if body.receiverId == "" {
        return;
      }
      PublishToUser(body.receiverId, body, "", sendOk);
      PublishToUser(sender, body, device, echoOk);
    }

    /** handlePayload: a payload that names a group is a group payload. */
    method HandlePayload(w: World, parse: string -> Option<string>, sender: string, device: string, body: Body,
                         sendOk: bool, echoOk: bool)
      requires body.Payload?
      modifies this
      ensures published == old(published) + (if body.groupId != "" then GroupPayload(w, parse, sender, device, body, sendOk, echoOk)
                                             else DirectPayload(sender, device, body, sendOk, echoOk))
    {
      if body.groupId != "" {
        HandleGroupPayload(w, parse, sender, device, body, sendOk, echoOk);
      } else {
        HandleDirectPayload(sender, device, body, sendOk, echoOk);
      }
    }
  }
}
