/** What the rate limiter promises, stated over the history of requests. */
module SlidingWindow {

  /** Nanoseconds on one clock. */
  type Time = int

  const SECOND := 1_000_000_000

  /** The stamps strictly after the cutoff, in order. */
  function After(ts: seq<Time>, cutoff: Time): seq<Time> {
    if ts == [] then []
    else After(ts[..|ts| - 1], cutoff) + (if ts[|ts| - 1] > cutoff then [ts[|ts| - 1]] else [])
  }

  type Table = map<string, seq<Time>>

  function Stamps(t: Table, ip: string): seq<Time> {
    if ip in t then t[ip] else []
  }

  /** record: prune, then append. */
  function Record(t: Table, ip: string, now: Time, window: Time): Table {
    t[ip := After(Stamps(t, ip), now - window) + [now]]
  }

  /** One pass of the cleanup worker. */
  function Sweep(t: Table, cutoff: Time): Table {
    map ip | ip in t && After(t[ip], cutoff) != [] :: t[ip]
  }

  datatype Event = Request(ip: string, at: Time) | Cleanup(at: Time)

  function TableAfter(es: seq<Event>, window: Time): Table {
    if es == [] then map[] else Advance(TableAfter(es[..|es| - 1], window), es[|es| - 1], window)
  }

  function Advance(t: Table, e: Event, window: Time): Table {
    match e
    case Request(ip, now) => Record(t, ip, now, window)
    case Cleanup(now) => Sweep(t, now - window)
  }

  /** The count that record returns for a request at now. */
  function CountAt(t: Table, ip: string, now: Time, window: Time): nat {
    |After(Stamps(t, ip), now - window)| + 1
  }

  // ---- The unpruned history

  function AllRequests(es: seq<Event>, ip: string): seq<Time> {
    if es == [] then []
    else
      var e := es[|es| - 1];
      AllRequests(es[..|es| - 1], ip) + (if e.Request? && e.ip == ip then [e.at] else [])
  }

  predicate Monotone(es: seq<Event>) {
    forall i, j :: 0 <= i <= j < |es| ==> es[i].at <= es[j].at
  }

  // ---- Filtering

  lemma {:induction false} AfterConcat(a: seq<Time>, b: seq<Time>, cutoff: Time)
    ensures After(a + b, cutoff) == After(a, cutoff) + After(b, cutoff)
  {
    if b == [] {
      assert a + b == a;
    } else {
      assert (a + b)[..|a + b| - 1] == a + b[..|b| - 1];
      AfterConcat(a, b[..|b| - 1], cutoff);
    }
  }

  lemma {:induction false} AfterTwice(ts: seq<Time>, low: Time, high: Time)
    requires low <= high
    ensures After(After(ts, low), high) == After(ts, high)
  {
    if ts != [] {
      var n := |ts| - 1;
      AfterTwice(ts[..n], low, high);
      AfterConcat(After(ts[..n], low), if ts[n] > low then [ts[n]] else [], high);
      assert [ts[n]][..0] == [];
    }
  }

  lemma {:induction false} AfterShrinks(ts: seq<Time>, low: Time, high: Time)
    requires low <= high
    ensures |After(ts, high)| <= |After(ts, low)|
  {
    if ts != [] {
      AfterShrinks(ts[..|ts| - 1], low, high);
    }
  }

  lemma {:induction false} AfterContents(ts: seq<Time>, cutoff: Time, t: Time)
    ensures t in After(ts, cutoff) <==> t in ts && t > cutoff
  {
    if ts != [] {
      var n := |ts| - 1;
      AfterContents(ts[..n], cutoff, t);
      assert ts == ts[..n] + [ts[n]];
    }
  }

  // ---- Pruning and cleanup are invisible

  lemma RecordStep(t: Table, ip: string, now: Time, window: Time, asked: string, cutoff: Time)
    requires cutoff >= now - window
    ensures After(Stamps(Record(t, ip, now, window), asked), cutoff)
         == After(Stamps(t, asked), cutoff) + (if ip == asked then After([now], cutoff) else [])
  {
    if ip == asked {
      AfterConcat(After(Stamps(t, ip), now - window), [now], cutoff);
      AfterTwice(Stamps(t, ip), now - window, cutoff);
    } else {
      assert Stamps(Record(t, ip, now, window), asked) == Stamps(t, asked);
    }
  }

  lemma SweepStep(t: Table, low: Time, asked: string, cutoff: Time)
    requires cutoff >= low
    ensures After(Stamps(Sweep(t, low), asked), cutoff) == After(Stamps(t, asked), cutoff)
  {
    AfterTwice(Stamps(t, asked), low, cutoff);
  }

  lemma RequestStep(es: seq<Event>, e: Event, asked: string, cutoff: Time)
    ensures After(AllRequests(es + [e], asked), cutoff)
         == After(AllRequests(es, asked), cutoff) + (if e.Request? && e.ip == asked then After([e.at], cutoff) else [])
  {
    assert (es + [e])[..|es|] == es;
    AfterConcat(AllRequests(es, asked), if e.Request? && e.ip == asked then [e.at] else [], cutoff);
  }

  lemma EventStep(t: Table, past: seq<Event>, e: Event, window: Time, ip: string, cutoff: Time)
    requires cutoff >= e.at - window
    requires After(Stamps(t, ip), cutoff) == After(AllRequests(past, ip), cutoff)
    ensures After(Stamps(Advance(t, e, window), ip), cutoff) == After(AllRequests(past + [e], ip), cutoff)
  {
    hide After, AllRequests, Stamps, Sweep, Record;
    RequestStep(past, e, ip, cutoff);
    match e {
      case Request(ip', now) => RecordStep(t, ip', now, window, ip, cutoff);
      case Cleanup(now) => SweepStep(t, now - window, ip, cutoff);
    }
  }

  lemma MonotonePrefix(es: seq<Event>)
    requires Monotone(es) && es != []
    ensures Monotone(es[..|es| - 1]) && (|es| > 1 ==> es[|es| - 2].at <= es[|es| - 1].at)
  {
  }

  /** From the horizon on, the table cannot be told from the full history. */
  lemma {:induction false} PruningIsInvisible(es: seq<Event>, window: Time, ip: string, cutoff: Time)
    requires Monotone(es) && (es != [] ==> cutoff >= es[|es| - 1].at - window)
    ensures After(Stamps(TableAfter(es, window), ip), cutoff) == After(AllRequests(es, ip), cutoff)
  {
    if es != [] {
      var n := |es| - 1;
      assert TableAfter(es, window) == Advance(TableAfter(es[..n], window), es[n], window);
      MonotonePrefix(es);
      hide *;
      PruningIsInvisible(es[..n], window, ip, cutoff);
      EventStep(TableAfter(es[..n], window), es[..n], es[n], window, ip, cutoff);
      assert es == es[..n] + [es[n]];
    }
  }

  /** record counts every past request of the address inside the window, plus the new one. */
  lemma CountIsExact(es: seq<Event>, window: Time, ip: string, now: Time)
    requires Monotone(es) && (es != [] ==> now >= es[|es| - 1].at)
    ensures CountAt(TableAfter(es, window), ip, now, window) == |After(AllRequests(es, ip), now - window)| + 1
  {
    hide After, AllRequests, Stamps, TableAfter;
    PruningIsInvisible(es, window, ip, now - window);
  }

  function RequestsOnly(es: seq<Event>): seq<Event> {
    if es == [] then []
    else RequestsOnly(es[..|es| - 1]) + (if es[|es| - 1].Request? then [es[|es| - 1]] else [])
  }

  lemma {:induction false} RequestsOnlyKeeps(es: seq<Event>, ip: string)
    ensures AllRequests(RequestsOnly(es), ip) == AllRequests(es, ip)
  {
    if es != [] {
      var n := |es| - 1;
      RequestsOnlyKeeps(es[..n], ip);
      var front := RequestsOnly(es[..n]);
      if es[n].Request? {
        assert (front + [es[n]])[..|front|] == front;
      } else {
        assert front + [] == front;
      }
    }
  }

  lemma {:induction false} RequestsOnlyMonotone(es: seq<Event>)
    requires Monotone(es)
    ensures Monotone(RequestsOnly(es))
    ensures forall i :: 0 <= i < |RequestsOnly(es)| ==> RequestsOnly(es)[i].at <= es[|es| - 1].at
  {
    if es != [] {
      var n := |es| - 1;
      RequestsOnlyMonotone(es[..n]);
      assert n > 0 ==> es[..n][n - 1].at <= es[n].at;
    }
  }

  /** Cleanup passes change no count, wherever they are inserted. */
  lemma CleanupIsInvisible(es: seq<Event>, window: Time, ip: string, now: Time)
    requires Monotone(es) && (es != [] ==> now >= es[|es| - 1].at)
    ensures CountAt(TableAfter(es, window), ip, now, window)
         == CountAt(TableAfter(RequestsOnly(es), window), ip, now, window)
  {
    RequestsOnlyKeeps(es, ip);
    RequestsOnlyMonotone(es);
    CountIsExact(es, window, ip, now);
    CountIsExact(RequestsOnly(es), window, ip, now);
  }

  /** The past requests of an address, admitted or not, that came after a time. */
  function RequestsSince(es: seq<Event>, ip: string, start: Time): set<nat> {
    set i: nat | i < |es| && es[i].Request? && es[i].ip == ip && es[i].at > start
  }

  lemma OneMoreSince(es: seq<Event>, e: Event, ip: string, start: Time)
    ensures |RequestsSince(es + [e], ip, start)|
         == |RequestsSince(es, ip, start)| + if e.Request? && e.ip == ip && e.at > start then 1 else 0
  {
    var since, before := RequestsSince(es + [e], ip, start), RequestsSince(es, ip, start);
    if e.Request? && e.ip == ip && e.at > start {
      assert since == before + {|es|};
    } else {
      assert since == before;
    }
  }

  lemma {:induction false} AllRequestsCounted(es: seq<Event>, ip: string, start: Time)
    ensures |After(AllRequests(es, ip), start)| == |RequestsSince(es, ip, start)|
  {
    if es == [] {
      assert RequestsSince(es, ip, start) == {};
    } else {
      var n := |es| - 1;
      var last := if es[n].Request? && es[n].ip == ip then [es[n].at] else [];
      AllRequestsCounted(es[..n], ip, start);
      assert es == es[..n] + [es[n]];
      OneMoreSince(es[..n], es[n], ip, start);
      AfterConcat(AllRequests(es[..n], ip), last, start);
      assert last != [] ==> last[..0] == [];
      assert |After(last, start)| == if es[n].Request? && es[n].ip == ip && es[n].at > start then 1 else 0;
      hide RequestsSince;
    }
  }

  /** A request stays within the limit exactly if fewer earlier ones, admitted or not, are in the window. */
  lemma WithinLimitIff(es: seq<Event>, window: Time, ip: string, now: Time, limit: nat)
    requires Monotone(es) && (es != [] ==> now >= es[|es| - 1].at)
    ensures CountAt(TableAfter(es, window), ip, now, window) <= limit <==> |RequestsSince(es, ip, now - window)| < limit
  {
    hide *;
    CountIsExact(es, window, ip, now);
    AllRequestsCounted(es, ip, now - window);
  }

  /** A cleanup keeps an address exactly if one of its stamps is still in the window, and all its stamps then. */
  lemma CleanupForgetsIdle(t: Table, ip: string, now: Time, window: Time)
    ensures var t' := Advance(t, Cleanup(now), window);
            && (ip in t' <==> ip in t && exists i :: 0 <= i < |t[ip]| && t[ip][i] > now - window)
            && (ip in t' ==> t'[ip] == t[ip])
  {
    if ip in t {
      var ts, kept := t[ip], After(t[ip], now - window);
      if kept != [] {
        AfterContents(ts, now - window, kept[0]);
      }
      if i :| 0 <= i < |ts| && ts[i] > now - window {
        AfterContents(ts, now - window, ts[i]);
      }
    }
    hide After;
  }

  // ---- The oldest stamp

  ghost predicate Sorted(ts: seq<Time>) {
    forall i, j :: 0 <= i <= j < |ts| ==> ts[i] <= ts[j]
  }

  ghost predicate UpTo(ts: seq<Time>, top: Time) {
    forall i :: 0 <= i < |ts| ==> ts[i] <= top
  }

  /** All stamps lie after the first bound and up to the second. */
  ghost predicate Within(ts: seq<Time>, low: Time, top: Time) {
    forall i :: 0 <= i < |ts| ==> low < ts[i] <= top
  }

  lemma {:induction false} AllRequestsSorted(es: seq<Event>, ip: string, top: Time)
    requires Monotone(es) && (es != [] ==> es[|es| - 1].at <= top)
    ensures Sorted(AllRequests(es, ip)) && UpTo(AllRequests(es, ip), top)
  {
    if es != [] {
      var n := |es| - 1;
      AllRequestsSorted(es[..n], ip, es[n].at);
    }
  }

  lemma {:induction false} AfterSorted(ts: seq<Time>, cutoff: Time, top: Time)
    requires Sorted(ts) && UpTo(ts, top)
    ensures Sorted(After(ts, cutoff)) && Within(After(ts, cutoff), cutoff, top)
  {
    if ts != [] {
      var n := |ts| - 1;
      AfterSorted(ts[..n], cutoff, ts[n]);
    }
  }

  ghost predicate StartsWithLeast(ts: seq<Time>)
    requires ts != []
  {
    forall t :: t in ts ==> ts[0] <= t
  }

  /** The first stamp record keeps is the oldest counted request, and lies inside the window. */
  lemma OldestIsMinimum(es: seq<Event>, window: Time, ip: string, now: Time)
    requires window > 0 && Monotone(es) && (es != [] ==> now >= es[|es| - 1].at)
    ensures var kept := Stamps(Record(TableAfter(es, window), ip, now, window), ip);
            && |kept| == |After(AllRequests(es, ip), now - window)| + 1
            && now - window < kept[0] <= now
            && StartsWithLeast(kept)
  {
    hide *;
    PruningIsInvisible(es, window, ip, now - window);
    AllRequestsSorted(es, ip, now);
    AfterSorted(AllRequests(es, ip), now - window, now);
    FirstIsLeast(After(AllRequests(es, ip), now - window), now - window, now);
    RecordKeeps(TableAfter(es, window), ip, now, window);
  }

  lemma RecordKeeps(t: Table, ip: string, now: Time, window: Time)
    ensures Stamps(Record(t, ip, now, window), ip) == After(Stamps(t, ip), now - window) + [now]
  {
  }

  lemma FirstIsLeast(past: seq<Time>, low: Time, now: Time)
    requires Sorted(past) && Within(past, low, now) && low < now
    ensures var kept := past + [now]; low < kept[0] <= now && StartsWithLeast(kept)
  {
    var kept := past + [now];
    forall t | t in kept ensures kept[0] <= t {
      var i :| 0 <= i < |kept| && kept[i] == t;
      assert i < |past| ==> past[0] <= past[i];
    }
  }

  // ---- The window theorem

  /** The i-th event is a request of ip in (end - window, end] that was let through. */
  predicate AdmittedInWindow(es: seq<Event>, i: nat, window: Time, limit: nat, ip: string, end: Time)
    requires i < |es|
  {
    && es[i].Request? && es[i].ip == ip && end - window < es[i].at <= end
    && CountAt(TableAfter(es[..i], window), ip, es[i].at, window) <= limit
  }

  function Admissions(es: seq<Event>, window: Time, limit: nat, ip: string, end: Time): nat {
    if es == [] then 0
    else
      var n := |es| - 1;
      Admissions(es[..n], window, limit, ip, end) + (if AdmittedInWindow(es, n, window, limit, ip, end) then 1 else 0)
  }

  lemma {:induction false} AdmissionsAreRequests(es: seq<Event>, window: Time, limit: nat, ip: string, end: Time)
    ensures Admissions(es, window, limit, ip, end) <= |After(AllRequests(es, ip), end - window)|
  {
    if es != [] {
      var n := |es| - 1;
      AdmissionsAreRequests(es[..n], window, limit, ip, end);
      AfterConcat(AllRequests(es[..n], ip), if es[n].Request? && es[n].ip == ip then [es[n].at] else [], end - window);
    }
  }

  /** An admission had counted all earlier ones of the window. */
  lemma AdmittedFits(past: seq<Event>, window: Time, limit: nat, ip: string, t: Time, end: Time)
    requires Monotone(past) && (past != [] ==> t >= past[|past| - 1].at) && end - window < t <= end
    requires CountAt(TableAfter(past, window), ip, t, window) <= limit
    ensures Admissions(past, window, limit, ip, end) + 1 <= limit
  {
    hide *;
    AdmissionsAreRequests(past, window, limit, ip, end);
    AfterShrinks(AllRequests(past, ip), t - window, end - window);
    CountIsExact(past, window, ip, t);
  }

  /** However the requests fall and whenever cleanup runs, no window admits more than the limit. */
  lemma {:induction false} WindowTheorem(es: seq<Event>, window: Time, limit: nat, ip: string, end: Time)
    requires Monotone(es)
    ensures Admissions(es, window, limit, ip, end) <= limit
  {
    if es != [] {
      var n := |es| - 1;
      MonotonePrefix(es);
      hide After, AllRequests, TableAfter, CountAt, Monotone;
      WindowTheorem(es[..n], window, limit, ip, end);
      if AdmittedInWindow(es, n, window, limit, ip, end) {
        AdmittedFits(es[..n], window, limit, ip, es[n].at, end);
      }
    }
  }

  // ---- Retry-After

  /** int(d.Seconds()): whole seconds, truncated toward zero. */
  function WholeSeconds(d: Time): int {
    if d >= 0 then d / SECOND else -((-d) / SECOND)
  }

  /** The header value for a rejected request, with the clock read again at reading. */
  function RetryAfter(oldest: Time, window: Time, reading: Time): int {
    var r := WholeSeconds(oldest + window - reading) + 1;
    if r < 0 then 1 else r
  }

  /** Read at the record's own time, the value is between one second and the window plus one second. */
  lemma RetryAfterBounds(oldest: Time, window: Time, now: Time)
    requires now - window < oldest <= now
    ensures 1 <= RetryAfter(oldest, window, now) <= window / SECOND + 1
  {
    var d := oldest + window - now;
    assert 0 < d <= window;
  }

  /** The wait is longer than what is left of the window, by a second at most. */
  lemma RetryAfterIsTight(oldest: Time, window: Time, reading: Time)
    requires reading <= oldest + window
    ensures var left := oldest + window - reading;
            left < RetryAfter(oldest, window, reading) * SECOND <= left + SECOND
  {
    var left := oldest + window - reading;
    assert left == (left / SECOND) * SECOND + left % SECOND;
  }

  /** Whenever the clock is read, after waiting that long the oldest counted stamp has left the window. */
  lemma WaitingExpiresOldest(oldest: Time, window: Time, reading: Time, later: Time)
    requires later >= reading + RetryAfter(oldest, window, reading) * SECOND
    ensures !(oldest > later - window)
  {
    var d := oldest + window - reading;
    if d >= 0 {
      assert d < (d / SECOND + 1) * SECOND;
    }
  }

  /**
   After any history, a request answered at its own clock reading is told to wait between one second and
   the window plus one second, and by then the oldest request it counted has left the window.
   */
  lemma AdviceIsSound(es: seq<Event>, window: Time, ip: string, now: Time, later: Time)
    requires window > 0 && Monotone(es) && (es != [] ==> now >= es[|es| - 1].at)
    requires var oldest := Record(TableAfter(es, window), ip, now, window)[ip][0];
             later >= now + RetryAfter(oldest, window, now) * SECOND
    ensures var kept := Record(TableAfter(es, window), ip, now, window)[ip];
            && 1 <= RetryAfter(kept[0], window, now) <= window / SECOND + 1
            && StartsWithLeast(kept) && kept[0] <= later - window
  {
    OldestIsMinimum(es, window, ip, now);
    hide After, TableAfter, RetryAfter, StartsWithLeast;
    var oldest := Record(TableAfter(es, window), ip, now, window)[ip][0];
    RetryAfterBounds(oldest, window, now);
    WaitingExpiresOldest(oldest, window, now, later);
  }

  /** The value is never negative, and zero exactly when the second reading is one to two seconds late. */
  lemma RetryAfterZeroIff(oldest: Time, window: Time, reading: Time)
    ensures RetryAfter(oldest, window, reading) >= 0
    ensures RetryAfter(oldest, window, reading) == 0 <==> SECOND <= reading - (oldest + window) < 2 * SECOND
  {
  }

  /** A second request half a minute after the first is rejected, and with the clock re-read 31 seconds later is told zero. */
  lemma ZeroAdviceOccurs()
    ensures var (es, window, limit, now) := ([Request("ip", 0)], 60 * SECOND, 1, 30 * SECOND);
            && Monotone(es) && CountAt(TableAfter(es, window), "ip", now, window) > limit
            && RetryAfter(Record(TableAfter(es, window), "ip", now, window)["ip"][0], window, now + 31 * SECOND) == 0
  {
    var es, window, now := [Request("ip", 0)], 60 * SECOND, 30 * SECOND;
    assert es[..0] == [] && [0][..0] == [];
    assert TableAfter(es, window) == map["ip" := [] + [0]];
    assert After([0], now - window) == [] + [0];
  }
}
