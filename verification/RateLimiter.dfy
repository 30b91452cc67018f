/** The limiter itself: a map of entries, each with a slice of stamps that is compacted in place. */
module RateLimiters {
  import opened SlidingWindow

  /** A Go slice: the first len cells of a backing array. */
  class WindowEntry {
    var buf: array<Time>
    var len: nat

    ghost predicate Valid()
      reads this
    {
      len <= buf.Length
    }

    ghost function Timestamps(): seq<Time>
      reads this, buf
      requires Valid()
    {
      buf[..len]
    }

    constructor ()
      ensures Valid() && fresh(buf) && Timestamps() == []
    {
      buf, len := new Time[0], 0;
    }

    /** valid := timestamps[:0], then append what is after the cutoff: reads run ahead of writes. */
    method Compact(cutoff: Time)
      requires Valid()
      modifies this, buf
      ensures Valid() && buf == old(buf) && Timestamps() == After(old(Timestamps()), cutoff)
    {
      hide After;
      ghost var ts := buf[..len];
      var kept := 0;
      AfterNext(ts, 0, cutoff);
      for i := 0 to len
        invariant kept <= i && buf == old(buf) && len == old(len)
        invariant buf[..kept] == After(ts[..i], cutoff)
        invariant forall j :: i <= j < len ==> buf[j] == ts[j]
      {
        AfterNext(ts, i, cutoff);
        if buf[i] > cutoff {
          buf[kept] := buf[i];
          kept := kept + 1;
          assert buf[..kept] == buf[..kept - 1] + [ts[i]];
        }
      }
      assert ts[..len] == ts;
      len := kept;
    }

    /** append: in place while the capacity lasts, otherwise into a larger array. */
    method Append(now: Time)
      requires Valid()
      modifies this, buf
      ensures Valid() && (buf == old(buf) || fresh(buf)) && Timestamps() == old(Timestamps()) + [now]
    {
      if len == buf.Length {
        var larger := new Time[2 * len + 1];
        for i := 0 to len
          invariant buf == old(buf) && len == old(len) && buf[..] == old(buf[..])
          invariant larger[..i] == buf[..i]
        {
          larger[i] := buf[i];
        }
        buf := larger;
      }
      buf[len] := now;
      len := len + 1;
    }

    /** The critical section of record. */
    method Touch(now: Time, cutoff: Time)
      requires Valid()
      modifies this, buf
      ensures Valid() && (buf == old(buf) || fresh(buf)) && Timestamps() == After(old(Timestamps()), cutoff) + [now]
    {
      hide After;
      Compact(cutoff);
      Append(now);
    }
  }

  datatype Decision = Decision(admitted: bool, remaining: nat, retryAfter: int)

  class RateLimiter {
    const limit: nat
    const window: Time
    var entries: map<string, WindowEntry>

    /** No two addresses share an entry or a backing array. */
    ghost predicate Valid()
      reads this, entries.Values
    {
      && (forall ip :: ip in entries ==> entries[ip].Valid())
      && (forall a, b :: a in entries && b in entries && a != b ==>
            entries[a] != entries[b] && entries[a].buf != entries[b].buf)
    }

    ghost function Buffers(): set<object>
      reads this, entries.Values
    {
      set ip | ip in entries :: entries[ip].buf
    }

    ghost function Contents(): Table
      reads this, entries.Values, Buffers()
      requires Valid()
    {
      map ip | ip in entries :: entries[ip].Timestamps()
    }

    constructor (limit: nat, window: Time)
      ensures Valid() && Contents() == map[] && this.limit == limit && this.window == window
    {
      this.limit, this.window := limit, window;
      entries := map[];
    }

    /** LoadOrStore. */
    method EntryOf(ip: string) returns (entry: WindowEntry)
      requires Valid()
      modifies this
      ensures Valid() && ip in entries && entries[ip] == entry
      ensures Contents() == old(Contents())[ip := Stamps(old(Contents()), ip)]
      ensures entry in old(entries.Values) || fresh(entry)
      ensures entry.buf in old(Buffers()) || fresh(entry.buf)
    {
      if ip in entries {
        entry := entries[ip];
      } else {
        entry := new WindowEntry();
        entries := entries[ip := entry];
      }
    }

    /** Only the touched entry changes: no other entry shares its stamps. */
    method Refresh(ip: string, now: Time)
      requires Valid() && ip in entries
      modifies entries[ip], entries[ip].buf
      ensures Valid() && Contents() == old(Contents())[ip := After(old(Contents()[ip]), now - window) + [now]]
    {
      hide After, WindowEntry.Timestamps, WindowEntry.Valid;
      ghost var before := Contents();
      assert forall k :: k in entries && k != ip ==> entries[k] != entries[ip] && entries[k].buf != entries[ip].buf;
      entries[ip].Touch(now, now - window);
      assert forall k :: k in entries && k != ip ==> entries[k].Timestamps() == before[k];
    }

    /** len(valid) and valid[0]. */
    method Summary(ip: string) returns (count: nat, oldest: Time)
      requires Valid() && ip in entries && Contents()[ip] != []
      ensures count == |Contents()[ip]| && oldest == Contents()[ip][0]
    {
      var entry := entries[ip];
      assert entry.Timestamps() == Contents()[ip];
      return entry.len, entry.buf[0];
    }

    method RecordRequest(ip: string, now: Time) returns (count: nat, oldest: Time)
      requires Valid()
      modifies this, entries.Values, Buffers()
      ensures Valid() && Contents() == Record(old(Contents()), ip, now, window)
      ensures count == CountAt(old(Contents()), ip, now, window)
      ensures oldest == Contents()[ip][0]
    {
      RecordInPlace(Contents(), ip, now, window);
      hide *;
      var entry := EntryOf(ip);
      Refresh(ip, now);
      count, oldest := Summary(ip);
    }

    method AllExpired(entry: WindowEntry, cutoff: Time) returns (expired: bool)
      requires entry.Valid()
      ensures expired <==> After(entry.Timestamps(), cutoff) == []
    {
      EmptyIffExpired(entry.Timestamps(), cutoff);
      hide After;
      for i := 0 to entry.len
        invariant forall j :: 0 <= j < i ==> entry.buf[j] <= cutoff
      {
        if entry.buf[i] > cutoff {
          assert entry.Timestamps()[i] > cutoff;
          return false;
        }
      }
      return true;
    }

    method IsExpired(ip: string, cutoff: Time) returns (expired: bool)
      requires Valid() && ip in Contents()
      ensures expired <==> After(Contents()[ip], cutoff) == []
    {
      hide After;
      expired := AllExpired(entries[ip], cutoff);
    }

    method Addresses() returns (ips: set<string>)
      requires Valid()
      ensures ips == Contents().Keys
    {
      return entries.Keys;
    }

    method Drop(ip: string)
      requires Valid()
      modifies this
      ensures Valid() && Contents() == old(Contents()) - {ip}
    {
      entries := entries - {ip};
    }

    /** One tick of the cleanup worker: drop the addresses whose stamps have all expired. */
    method CleanupTick(now: Time)
      requires Valid()
      modifies this
      ensures Valid() && Contents() == Sweep(old(Contents()), now - window)
    {
      var cutoff := now - window;
      ghost var before := Contents();
      var todo := Addresses();
      SweepStart(before, cutoff);
      while todo != {}
        invariant Valid() && PartlySwept(before, Contents(), todo, cutoff)
        decreases todo
      {
        var k :| k in todo;
        SweepOne(before, Contents(), todo, k, cutoff);
        var allExpired := IsExpired(k, cutoff);
        if allExpired {
          Drop(k);
        }
        todo := todo - {k};
      }
      SweepDone(before, Contents(), cutoff);
    }

    /** The middleware's decision; reading is the clock when Retry-After is computed. */
    method Check(ip: string, now: Time, reading: Time) returns (d: Decision)
      requires Valid()
      modifies this, entries.Values, Buffers()
      ensures Valid() && Contents() == Record(old(Contents()), ip, now, window)
      ensures d.admitted <==> CountAt(old(Contents()), ip, now, window) <= limit
      ensures d.admitted ==> d.remaining == limit - CountAt(old(Contents()), ip, now, window) && d.retryAfter == 0
      ensures !d.admitted ==> d.remaining == 0 && d.retryAfter == RetryAfter(Contents()[ip][0], window, reading)
    {
      var count, oldest := RecordRequest(ip, now);
      var retryAfter := 0;
      if count > limit {
        retryAfter := WholeSeconds(oldest + window - reading) + 1;
        if retryAfter < 0 {
          retryAfter := 1;
        }
      }
      var remaining := limit - count;
      if remaining < 0 {
        remaining := 0;
      }
      return Decision(count <= limit, remaining, retryAfter);
    }
  }

  /** Creating the entry first and refreshing it then is record on the table. */
  lemma RecordInPlace(t: Table, ip: string, now: Time, window: Time)
    ensures var stored := t[ip := Stamps(t, ip)];
            var kept := After(stored[ip], now - window) + [now];
            && stored[ip := kept] == Record(t, ip, now, window)
            && Record(t, ip, now, window)[ip] == kept && |kept| == CountAt(t, ip, now, window)
  {
  }

  lemma AfterNext(ts: seq<Time>, i: nat, cutoff: Time)
    requires i <= |ts|
    ensures i == 0 ==> After(ts[..i], cutoff) == []
    ensures i < |ts| ==>
      After(ts[..i + 1], cutoff) == After(ts[..i], cutoff) + (if ts[i] > cutoff then [ts[i]] else [])
  {
    if i < |ts| {
      assert ts[..i + 1][..i] == ts[..i];
    }
  }

  /** t is before with the expired addresses outside todo dropped. */
  ghost predicate PartlySwept(before: Table, t: Table, todo: set<string>, cutoff: Time) {
    && todo <= t.Keys <= before.Keys
    && (forall k :: k in t ==> t[k] == before[k])
    && (forall k :: k in before && k !in todo ==> (k in t <==> After(before[k], cutoff) != []))
  }

  lemma SweepStart(t: Table, cutoff: Time)
    ensures PartlySwept(t, t, t.Keys, cutoff)
  {
  }

  lemma SweepOne(before: Table, t: Table, todo: set<string>, k: string, cutoff: Time)
    requires PartlySwept(before, t, todo, cutoff) && k in todo
    ensures k in t && PartlySwept(before, if After(t[k], cutoff) == [] then t - {k} else t, todo - {k}, cutoff)
  {
    hide After;
  }

  lemma SweepDone(before: Table, t: Table, cutoff: Time)
    requires PartlySwept(before, t, {}, cutoff)
    ensures t == Sweep(before, cutoff)
  {
    hide After;
  }

  lemma {:induction false} EmptyIffExpired(ts: seq<Time>, cutoff: Time)
    ensures After(ts, cutoff) == [] <==> forall j :: 0 <= j < |ts| ==> ts[j] <= cutoff
  {
    if ts != [] {
      EmptyIffExpired(ts[..|ts| - 1], cutoff);
    }
  }
}
