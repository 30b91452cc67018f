/** The WebSocketMessage envelope and the broker messages that carry it. */
module Envelope {
  import opened Wrappers

  datatype MembershipKind = Joined | Left | MemberRemoved

  /** A message body: bytes that do not unmarshal, one of the five oneof cases, or no case set. */
  datatype Body =
    | Undecodable(raw: string)
    | Payload(messageId: string, senderId: string, receiverId: string, groupId: string, ciphertext: string)
    | Receipt(messageId: string, senderId: string, receiverId: string, groupId: string, delivered: bool)
    | MessageAck(messageId: string)
    | KeyDistribution(groupId: string, senderUser: string, senderDevice: string,
                      recipientUser: string, recipientDevice: string, skdm: string, nonce: string)
    | Membership(groupId: string, kind: MembershipKind, actor: string, subject: string)
    | NoContent

  /** A broker message: its body and the x-source-device-id header, when that is a string. */
  datatype Message = Message(body: Body, source: Option<string>)

  /** The white space that strings.TrimSpace removes (the Unicode White_Space property). */
  predicate IsSpace(c: char) {
    || '\t' <= c <= '\r'
    || c == ' ' || c == '\U{85}' || c == '\U{A0}' || c == '\U{1680}'
    || '\U{2000}' <= c <= '\U{200A}'
    || c == '\U{2028}' || c == '\U{2029}' || c == '\U{202F}' || c == '\U{205F}' || c == '\U{3000}'
  }

  function TrimLeft(s: string): string {
    if s != [] && IsSpace(s[0]) then TrimLeft(s[1..]) else s
  }

  function TrimRight(s: string): string {
    if s != [] && IsSpace(s[|s| - 1]) then TrimRight(s[..|s| - 1]) else s
  }

  function TrimSpace(s: string): string {
    TrimRight(TrimLeft(s))
  }

  /** The device that a delivery must skip, or "" when the header is missing. */
  function SkippedDevice(m: Message): string {
    match m.source
    case None => ""
    case Some(s) => TrimSpace(s)
  }

  predicate IsEchoFor(m: Message, deviceId: string) {
    SkippedDevice(m) != "" && SkippedDevice(m) == deviceId
  }

  predicate AllSpace(s: string) {
    forall i :: 0 <= i < |s| ==> IsSpace(s[i])
  }

  lemma {:induction false} TrimLeftSplits(s: string) returns (cut: string)
    ensures AllSpace(cut) && s == cut + TrimLeft(s) && (TrimLeft(s) != "" ==> !IsSpace(TrimLeft(s)[0]))
  {
    if s != [] && IsSpace(s[0]) {
      var rest := TrimLeftSplits(s[1..]);
      cut := [s[0]] + rest;
      assert s == [s[0]] + s[1..];
    } else {
      cut := "";
    }
  }

  lemma {:induction false} TrimRightSplits(s: string) returns (cut: string)
    ensures AllSpace(cut) && s == TrimRight(s) + cut
    ensures TrimRight(s) != "" ==> !IsSpace(TrimRight(s)[|TrimRight(s)| - 1]) && TrimRight(s)[0] == s[0]
  {
    if s != [] && IsSpace(s[|s| - 1]) {
      var rest := TrimRightSplits(s[..|s| - 1]);
      cut := rest + [s[|s| - 1]];
      assert s == s[..|s| - 1] + [s[|s| - 1]];
    } else {
      cut := "";
    }
  }

  /** Trimming cuts white space off both ends, and all of it. */
  lemma TrimSpaceIsExact(s: string)
    ensures var t := TrimSpace(s);
            && (exists a, b :: AllSpace(a) && AllSpace(b) && s == a + t + b)
            && (t != "" ==> !IsSpace(t[0]) && !IsSpace(t[|t| - 1]))
  {
    var a := TrimLeftSplits(s);
    var b := TrimRightSplits(TrimLeft(s));
    assert s == a + TrimSpace(s) + b;
  }
}
