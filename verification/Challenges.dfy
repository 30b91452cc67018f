/** Login challenges: one per id, valid for five minutes, and gone after the first attempt. */
module Challenges {
  import opened Wrappers

  type Time = int

  const CHALLENGE_TTL := 300_000_000_000

  datatype Entry = Entry(value: string, expiresAt: Time)

  type Cache = map<string, Entry>

  datatype Outcome = Accepted | NotFound | Expired | Mismatch

  /** In the order of the cache lock; at is the clock reading the operation uses. */
  datatype Event =
    | Issue(id: string, value: string, at: Time)
    | Attempt(id: string, value: string, at: Time)
    | Evict(at: Time)

  function Swept(c: Cache, now: Time): Cache {
    map id | id in c && now <= c[id].expiresAt :: c[id]
  }

  function Advance(c: Cache, e: Event): Cache {
    match e
    case Issue(id, value, at) => c[id := Entry(value, at + CHALLENGE_TTL)]
    case Attempt(id, _, _) => c - {id}
    case Evict(at) => Swept(c, at)
  }

  function CacheAfter(es: seq<Event>): Cache {
    if es == [] then map[] else Advance(CacheAfter(es[..|es| - 1]), es[|es| - 1])
  }

  function Verdict(c: Cache, id: string, value: string, now: Time): Outcome {
    if id !in c then NotFound
    else if now > c[id].expiresAt then Expired
    else if c[id].value != value then Mismatch
    else Accepted
  }

  /** The verdict on the attempt es[k]. */
  function VerdictAt(es: seq<Event>, k: nat): Outcome
    requires k < |es| && es[k].Attempt?
  {
    Verdict(CacheAfter(es[..k]), es[k].id, es[k].value, es[k].at)
  }

  /**
   Issues and attempts read the clock under the lock, so never behind an earlier reading. An eviction
   reads it before it takes the lock and may lag.
   */
  predicate Monotone(es: seq<Event>) {
    forall i, j :: 0 <= i < j < |es| && !es[j].Evict? ==> es[i].at <= es[j].at
  }

  predicate NotBefore(es: seq<Event>, now: Time) {
    forall i :: 0 <= i < |es| ==> es[i].at <= now
  }

  // ---- What the history says

  /** es[i] issued the last challenge for id, and nobody has tried it since. */
  ghost predicate IsOutstanding(es: seq<Event>, id: string, i: nat) {
    && i < |es| && es[i].Issue? && es[i].id == id
    && forall j :: i < j < |es| && !es[j].Evict? ==> es[j].id != id
  }

  lemma OutstandingIsUnique(es: seq<Event>, id: string, i: nat, j: nat)
    requires IsOutstanding(es, id, i) && IsOutstanding(es, id, j)
    ensures i == j
  {
  }

  /** Evictions aside, the entry for id: from the outstanding issue, if there is one. */
  function Pending(es: seq<Event>, id: string): Option<Entry> {
    if es == [] then None
    else match es[|es| - 1]
         case Issue(id', value, at) =>
           if id' == id then Some(Entry(value, at + CHALLENGE_TTL)) else Pending(es[..|es| - 1], id)
         case Attempt(id', _, _) => if id' == id then None else Pending(es[..|es| - 1], id)
         case Evict(_) => Pending(es[..|es| - 1], id)
  }

  lemma {:induction false} PendingIsOutstanding(es: seq<Event>, id: string)
    ensures Pending(es, id).Some? <==> exists i: nat :: IsOutstanding(es, id, i)
    ensures forall i: nat :: IsOutstanding(es, id, i) ==>
      Pending(es, id) == Some(Entry(es[i].value, es[i].at + CHALLENGE_TTL))
  {
    if es != [] {
      var n := |es| - 1;
      PendingIsOutstanding(es[..n], id);
      if !es[n].Evict? && es[n].id == id {
        if es[n].Issue? {
          assert IsOutstanding(es, id, n);
        }
      } else {
        forall i: nat ensures IsOutstanding(es, id, i) <==> IsOutstanding(es[..n], id, i) {
          SameOutstanding(es, id, i);
        }
      }
    }
  }

  lemma SameOutstanding(es: seq<Event>, id: string, i: nat)
    requires es != [] && (es[|es| - 1].Evict? || es[|es| - 1].id != id)
    ensures IsOutstanding(es, id, i) <==> IsOutstanding(es[..|es| - 1], id, i)
  {
    var n := |es| - 1;
    if IsOutstanding(es[..n], id, i) {
      forall j | i < j < |es| && !es[j].Evict? ensures es[j].id != id {
        if j < n {
          assert es[..n][j] == es[j];
        }
      }
    }
  }

  /** The cache holds what is pending, except what an eviction already found expired. */
  lemma {:induction false} CacheIsPending(es: seq<Event>, id: string, now: Time)
    requires Monotone(es) && NotBefore(es, now)
    ensures var c, p := CacheAfter(es), Pending(es, id);
            if id in c then p == Some(c[id]) else p.None? || now > p.value.expiresAt
  {
    if es != [] {
      CacheIsPending(es[..|es| - 1], id, now);
    }
  }

  // ---- The promises

  /** An attempt is judged against the outstanding challenge, and against nothing else. */
  lemma AttemptIsJudgedByLatest(es: seq<Event>, id: string, value: string, now: Time)
    requires Monotone(es) && NotBefore(es, now)
    ensures var v := Verdict(CacheAfter(es), id, value, now);
            && (v == Accepted <==> exists i: nat ::
                  IsOutstanding(es, id, i) && now <= es[i].at + 300_000_000_000 && es[i].value == value)
            && (v == Mismatch <==> exists i: nat ::
                  IsOutstanding(es, id, i) && now <= es[i].at + 300_000_000_000 && es[i].value != value)
            && ((forall i: nat :: !IsOutstanding(es, id, i)) ==> v == NotFound)
  {
    CacheIsPending(es, id, now);
    PendingIsOutstanding(es, id);
    if i: nat :| IsOutstanding(es, id, i) {
      forall j: nat | IsOutstanding(es, id, j) ensures j == i {
        OutstandingIsUnique(es, id, i, j);
      }
    }
  }

  function WithoutEvictions(es: seq<Event>): seq<Event> {
    if es == [] then []
    else WithoutEvictions(es[..|es| - 1]) + (if es[|es| - 1].Evict? then [] else [es[|es| - 1]])
  }

  lemma {:induction false} EvictionsAreNotPending(es: seq<Event>, id: string)
    ensures Pending(WithoutEvictions(es), id) == Pending(es, id)
  {
    if es != [] {
      var front := WithoutEvictions(es[..|es| - 1]);
      EvictionsAreNotPending(es[..|es| - 1], id);
      assert front + [] == front && (front + [es[|es| - 1]])[..|front|] == front;
    }
  }

  lemma {:induction false} WithoutEvictionsIsMonotone(es: seq<Event>, now: Time)
    requires Monotone(es) && NotBefore(es, now)
    ensures Monotone(WithoutEvictions(es)) && NotBefore(WithoutEvictions(es), now)
  {
    if es != [] {
      var n := |es| - 1;
      WithoutEvictionsIsMonotone(es[..n], now);
      if !es[n].Evict? {
        assert NotBefore(es[..n], es[n].at);
        WithoutEvictionsIsMonotone(es[..n], es[n].at);
      }
    }
  }

  /** Wherever the worker runs, the same attempts are accepted, and the same mismatch. */
  lemma EvictionIsInvisible(es: seq<Event>, id: string, value: string, now: Time)
    requires Monotone(es) && NotBefore(es, now)
    ensures var v, v' := Verdict(CacheAfter(es), id, value, now), Verdict(CacheAfter(WithoutEvictions(es)), id, value, now);
            (v == Accepted <==> v' == Accepted) && (v == Mismatch <==> v' == Mismatch)
  {
    WithoutEvictionsIsMonotone(es, now);
    EvictionsAreNotPending(es, id);
    CacheIsPending(es, id, now);
    CacheIsPending(WithoutEvictions(es), id, now);
  }

  /** An eviction frees exactly the entries that have expired. */
  lemma EvictionForgetsExpired(es: seq<Event>, id: string, now: Time)
    ensures var c, c' := CacheAfter(es), CacheAfter(es + [Evict(now)]);
            && (id in c' <==> id in c && now <= c[id].expiresAt) && (id in c' ==> c'[id] == c[id])
  {
    assert (es + [Evict(now)])[..|es|] == es;
  }

  /** Between two accepted attempts on one id there is a new challenge: none is accepted twice. */
  lemma ChallengeIsAcceptedOnce(es: seq<Event>, j: nat, k: nat)
    requires Monotone(es) && j < k < |es| && es[j].Attempt? && es[k].Attempt? && es[j].id == es[k].id
    requires VerdictAt(es, k) == Accepted
    ensures exists i :: j < i < k && es[i].Issue? && es[i].id == es[k].id && es[i].value == es[k].value
  {
    var past := es[..k];
    AttemptIsJudgedByLatest(past, es[k].id, es[k].value, es[k].at);
    var i: nat :| IsOutstanding(past, es[k].id, i) && past[i].value == es[k].value;
    assert past[j] == es[j] && past[i] == es[i];
  }

  class AuthService {
    var challengeCache: Cache

    constructor ()
      ensures challengeCache == map[]
    {
      challengeCache := map[];
    }

    method StoreChallenge(id: string, challenge: string, now: Time)
      modifies this
      ensures challengeCache == Advance(old(challengeCache), Issue(id, challenge, now))
    {
      challengeCache := challengeCache[id := Entry(challenge, now + CHALLENGE_TTL)];
    }

    method ConsumeChallenge(id: string, challenge: string, now: Time) returns (outcome: Outcome)
      modifies this
      ensures challengeCache == Advance(old(challengeCache), Attempt(id, challenge, now))
      ensures outcome == Verdict(old(challengeCache), id, challenge, now)
    {
      var entry := if id in challengeCache then Some(challengeCache[id]) else None;
      challengeCache := challengeCache - {id};
      if entry.None? {
        return NotFound;
      }
      if now > entry.value.expiresAt {
        return Expired;
      }
      if entry.value.value != challenge {
        return Mismatch;
      }
      return Accepted;
    }

    method EvictExpiredChallenges(now: Time) returns (evicted: nat)
      modifies this
      ensures challengeCache == Advance(old(challengeCache), Evict(now))
      ensures evicted == |old(challengeCache)| - |challengeCache|
    {
      evicted := 0;
      var before := challengeCache;
      var todo := before.Keys;
      while todo != {}
        invariant todo <= challengeCache.Keys <= before.Keys
        invariant evicted == |before| - |challengeCache|
        invariant forall id :: id in challengeCache ==> challengeCache[id] == before[id]
        invariant forall id :: id in before && id !in todo ==> (id in challengeCache <==> now <= before[id].expiresAt)
        decreases todo
      {
        var id :| id in todo;
        todo := todo - {id};
        if now > challengeCache[id].expiresAt {
          assert challengeCache.Keys == (challengeCache - {id}).Keys + {id};
          challengeCache := challengeCache - {id};
          evicted := evicted + 1;
        }
      }
    }
  }
}
