/** Queue names, routing keys and the matching rules of the exchanges. */
module Topology {

  function UserDeviceQueueName(user: string, device: string): string {
    "user." + user + "." + device
  }

  function GroupRoutingKey(group: string): string {
    "group." + group
  }

  predicate IsHexLower(c: char) {
    '0' <= c <= '9' || 'a' <= c <= 'f'
  }

  /** The form in which uuid.UUID.String() writes an id. */
  predicate IsCanonicalUuid(s: string) {
    && |s| == 36
    && forall i :: 0 <= i < 36 ==> if i in {8, 13, 18, 23} then s[i] == '-' else IsHexLower(s[i])
  }

  /** Distinct devices have distinct queues. */
  lemma QueueNameInjective(u: string, d: string, u': string, d': string)
    requires IsCanonicalUuid(u) && IsCanonicalUuid(u')
    ensures UserDeviceQueueName(u, d) == UserDeviceQueueName(u', d') <==> u == u' && d == d'
  {
    var n, n' := UserDeviceQueueName(u, d), UserDeviceQueueName(u', d');
    if n == n' {
      assert n[5..41] == u && n'[5..41] == u' && n[42..] == d && n'[42..] == d';
    }
  }

  // ---- Topic exchanges, section 3.1.3.3 of AMQP 0-9-1

  /** The words of a routing key or pattern, which dots separate. */
  function Words(s: string): seq<string> {
    if s == "" then [""]
    else
      var rest := Words(s[1..]);
      if s[0] == '.' then [""] + rest else [[s[0]] + rest[0]] + rest[1..]
  }

  /** A star stands for one word, a hash for any number of words. */
  predicate TopicMatches(pattern: seq<string>, key: seq<string>)
    decreases |pattern| + |key|
  {
    if pattern == [] then key == []
    else if pattern[0] == "#" then
      TopicMatches(pattern[1..], key) || (key != [] && TopicMatches(pattern, key[1..]))
    else
      key != [] && (pattern[0] == "*" || pattern[0] == key[0]) && TopicMatches(pattern[1..], key[1..])
  }

  lemma {:induction false} PlainPatternMatchesItself(pattern: seq<string>, key: seq<string>)
    requires "*" !in pattern && "#" !in pattern
    ensures TopicMatches(pattern, key) <==> pattern == key
    decreases |pattern|
  {
    if pattern != [] && key != [] {
      PlainPatternMatchesItself(pattern[1..], key[1..]);
      assert pattern == [pattern[0]] + pattern[1..] && key == [key[0]] + key[1..];
    }
  }

  function Join(ws: seq<string>): string
    requires ws != []
  {
    if |ws| == 1 then ws[0] else ws[0] + "." + Join(ws[1..])
  }

  lemma {:induction false} JoinWords(s: string)
    ensures Words(s) != [] && Join(Words(s)) == s
  {
    if s != "" {
      JoinWords(s[1..]);
      var rest := Words(s[1..]);
      if s[0] == '.' {
        assert ([""] + rest)[1..] == rest;
      } else {
        var ws := [[s[0]] + rest[0]] + rest[1..];
        assert ws[1..] == rest[1..];
        if |rest| > 1 {
          assert Join(rest) == rest[0] + "." + Join(rest[1..]);
          assert Join(ws) == [s[0]] + rest[0] + "." + Join(rest[1..]);
        }
      }
      assert s == [s[0]] + s[1..];
    }
  }

  lemma {:induction false} DotFreeIsOneWord(s: string)
    requires '.' !in s
    ensures Words(s) == [s]
  {
    if s != "" {
      DotFreeIsOneWord(s[1..]);
      assert s == [s[0]] + s[1..];
    }
  }

  lemma {:induction false} WordsAfterDot(a: string, b: string)
    requires '.' !in a
    ensures Words(a + "." + b) == [a] + Words(b)
  {
    var s := a + "." + b;
    if a == "" {
      assert s[1..] == b;
    } else {
      WordsAfterDot(a[1..], b);
      assert s[1..] == a[1..] + "." + b;
      assert ([a[1..]] + Words(b))[1..] == Words(b);
      assert [s[0]] + a[1..] == a;
    }
  }

  /** A binding for a canonical group id lets through the keys of exactly that group. */
  lemma GroupBindingMatches(group: string, asked: string)
    requires IsCanonicalUuid(group)
    ensures TopicMatches(Words(GroupRoutingKey(group)), Words(GroupRoutingKey(asked))) <==> asked == group
  {
    var pattern, key := Words(GroupRoutingKey(group)), Words(GroupRoutingKey(asked));
    assert "group." + group == "group" + "." + group;
    assert "group." + asked == "group" + "." + asked;
    WordsAfterDot("group", group);
    WordsAfterDot("group", asked);
    DotFreeIsOneWord(group);
    assert pattern == ["group", group] && group[8] == '-';
    assert |"*"| == 1 && |"#"| == 1 && |"group"| == 5;
    PlainPatternMatchesItself(pattern, key);
    JoinWords(GroupRoutingKey(group));
    JoinWords(GroupRoutingKey(asked));
    if pattern == key {
      assert GroupRoutingKey(group)[6..] == group && GroupRoutingKey(asked)[6..] == asked;
    }
  }
}
