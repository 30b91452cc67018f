/** The table of stored sender key distributions, and the handler that fills it. */
module SenderKeys {
  import opened Wrappers
  import opened Envelope

  datatype Key = Key(senderUser: string, senderDevice: string, recipient: string, group: string)
  datatype Content = Content(skdm: string, nonce: string)

  type Table = map<Key, Content>

  /** A GKD frame read from a socket, with the outcome of publishing it and of the upsert. */
  datatype Distribution = Distribution(sender: string, device: string, frame: Body, publishOk: bool, persistOk: bool)

  /** The frame may not claim another sender, and must name a recipient. */
  predicate Accepted(d: Distribution) {
    && d.frame.KeyDistribution?
    && (d.frame.senderUser == "" || d.frame.senderUser == d.sender)
    && (d.frame.senderDevice == "" || d.frame.senderDevice == d.device)
    && d.frame.recipientUser != ""
  }

  /** The row key, when all four ids parse. */
  function KeyOf(parse: string -> Option<string>, d: Distribution): Option<Key>
    requires d.frame.KeyDistribution?
  {
    var su, sd, r, g := parse(d.sender), parse(d.device), parse(d.frame.recipientUser), parse(d.frame.groupId);
    if su.Some? && sd.Some? && r.Some? && g.Some? then Some(Key(su.value, sd.value, r.value, g.value)) else None
  }

  /** The message may claim no other sender, names its recipient, and was published and stored for the key. */
  predicate Stores(parse: string -> Option<string>, d: Distribution, k: Key) {
    && d.frame.KeyDistribution? && d.publishOk && d.persistOk && d.frame.recipientUser != ""
    && (d.frame.senderUser == d.sender || d.frame.senderUser == "")
    && (d.frame.senderDevice == d.device || d.frame.senderDevice == "")
    && parse(d.sender) == Some(k.senderUser) && parse(d.device) == Some(k.senderDevice)
    && parse(d.frame.recipientUser) == Some(k.recipient) && parse(d.frame.groupId) == Some(k.group)
  }

  function ContentOf(d: Distribution): Content
    requires d.frame.KeyDistribution?
  {
    Content(d.frame.skdm, d.frame.nonce)
  }

  function Handle(parse: string -> Option<string>, t: Table, d: Distribution): Table {
    if !Accepted(d) || !d.publishOk then t
    else match KeyOf(parse, d)
         case Some(k) => if d.persistOk then t[k := ContentOf(d)] else t
         case None => t
  }

  function TableAfter(parse: string -> Option<string>, ds: seq<Distribution>): Table {
    if ds == [] then map[] else Handle(parse, TableAfter(parse, ds[..|ds| - 1]), ds[|ds| - 1])
  }

  /** i is the last message that stores under k. */
  ghost predicate IsLast(parse: string -> Option<string>, ds: seq<Distribution>, k: Key, i: nat) {
    && i < |ds| && Stores(parse, ds[i], k)
    && forall j :: i < j < |ds| ==> !Stores(parse, ds[j], k)
  }

  /** The table holds exactly the last stored content of every key. */
  lemma {:induction false} TableHoldsLast(parse: string -> Option<string>, ds: seq<Distribution>, k: Key)
    ensures var t := TableAfter(parse, ds);
            && (k in t <==> exists i: nat :: IsLast(parse, ds, k, i))
            && (k in t ==> forall i: nat :: IsLast(parse, ds, k, i) ==> t[k] == Content(ds[i].frame.skdm, ds[i].frame.nonce))
  {
    if ds != [] {
      var n := |ds| - 1;
      TableHoldsLast(parse, ds[..n], k);
      if Stores(parse, ds[n], k) {
        assert IsLast(parse, ds, k, n);
      } else {
        forall i: nat ensures IsLast(parse, ds, k, i) <==> IsLast(parse, ds[..n], k, i) {
          if IsLast(parse, ds[..n], k, i) {
            forall j | i < j < |ds| ensures !Stores(parse, ds[j], k) {
              if j < n {
                assert ds[..n][j] == ds[j];
              }
            }
          }
        }
      }
    }
  }

  // ---- The rows as frames again

  /** The replayed frame: the row with recipient_device_id erased. */
  function FrameOf(k: Key, c: Content): Body {
    KeyDistribution(k.group, k.senderUser, k.senderDevice, k.recipient, "", c.skdm, c.nonce)
  }

  datatype StoredRow = StoredRow(key: Key, content: Content)

  /** rows lists, in some order, exactly the rows for the recipient. */
  ghost predicate IsListing(t: Table, recipient: string, rows: seq<StoredRow>) {
    && (forall row :: row in rows ==> row.key in t && row.key.recipient == recipient && t[row.key] == row.content)
    && (forall k :: k in t && k.recipient == recipient ==> StoredRow(k, t[k]) in rows)
  }

  class SenderKeyRepository {
    var rows: Table

    constructor ()
      ensures rows == map[]
    {
      rows := map[];
    }

    /** Insert, or replace encrypted_skdm and nonce on a key conflict. */
    method Upsert(k: Key, c: Content)
      modifies this
      ensures rows == old(rows)[k := c]
    {
      rows := rows[k := c];
    }

    method ListForRecipient(recipient: string) returns (found: seq<StoredRow>)
      ensures IsListing(rows, recipient, found)
    {
      found := [];
      var todo := rows.Keys;
      while todo != {}
        invariant todo <= rows.Keys
        invariant forall row :: row in found ==>
          row.key in rows && row.key.recipient == recipient && rows[row.key] == row.content
        invariant forall k :: k in rows && k !in todo && k.recipient == recipient ==> StoredRow(k, rows[k]) in found
        decreases todo
      {
        var k :| k in todo;
        if k.recipient == recipient {
          found := found + [StoredRow(k, rows[k])];
        }
        todo := todo - {k};
      }
    }

    /** handleGroupKeyDistribution; forwarded says whether the frame went to the recipient. */
    method HandleDistribution(parse: string -> Option<string>, d: Distribution) returns (forwarded: bool)
      modifies this
      ensures rows == Handle(parse, old(rows), d)
      ensures forwarded <==>
        && d.frame.KeyDistribution? && d.frame.recipientUser != "" && d.publishOk
        && (d.frame.senderUser == d.sender || d.frame.senderUser == "")
        && (d.frame.senderDevice == d.device || d.frame.senderDevice == "")
    {
      if !d.frame.KeyDistribution? {
        return false;
      }
      if d.frame.senderUser != "" && d.frame.senderUser != d.sender {
        return false;
      }
      if d.frame.senderDevice != "" && d.frame.senderDevice != d.device {
        return false;
      }
      if d.frame.recipientUser == "" {
        return false;
      }
      if !d.publishOk {
        return false;
      }
      var key := KeyOf(parse, d);
      if key.Some? && d.persistOk {
        Upsert(key.value, ContentOf(d));
      }
      return true;
    }
  }
}
