/** The scanner limiter of the proxy (scannerLimiter in proxy/internal/handler/handler.go): a
    windowed counter per client address with block expiry. Times are nanoseconds; 0 is the zero time. */
module Scanner {
  import opened Text
  import opened Ordering

  datatype Entry = Entry(windowStart: int, count: int, blockedUntil: int)

  const ZERO := Entry(0, 0, 0)

  /** newScannerLimiter */
  datatype Config = Config(window: int, threshold: int, blockFor: int)

  const SECOND := 1_000_000_000

  const STRICT := Config(60 * SECOND, 6, 15 * 60 * SECOND)
  const STANDARD := Config(60 * SECOND, 12, 10 * 60 * SECOND)

  predicate ValidConfig(c: Config) { c.window >= 0 && c.threshold >= 1 && c.blockFor > 0 }

  type Entries = map<string, Entry>

  function Get(es: Entries, ip: string): Entry { if ip in es then es[ip] else ZERO }

  // ---------------------------------------------------------------- the two operations on one entry

  function AfterSuspicious(c: Config, e: Entry, now: int): Entry {
    var restart := e.windowStart == 0 || now - e.windowStart > c.window;
    var windowStart, count := if restart then now else e.windowStart, (if restart then 0 else e.count) + 1;
    if count >= c.threshold then Entry(now, 0, now + c.blockFor) else Entry(windowStart, count, e.blockedUntil)
  }

  function AfterQuery(e: Entry, now: int): Entry {
    if now < e.blockedUntil || e.blockedUntil == 0 then e else Entry(now, 0, 0)
  }

  predicate Blocked(e: Entry, now: int) { now < e.blockedUntil }

  /** scannerLimiter. The mutex makes each method one step. */
  class Limiter {
    const config: Config
    var entries: Entries
    var totalRequests: int
    var suspiciousRequests: int
    var blockedRequests: int

    constructor (config: Config)
      ensures this.config == config && entries == map[]
      ensures totalRequests == suspiciousRequests == blockedRequests == 0
    {
      this.config, entries := config, map[];
      totalRequests, suspiciousRequests, blockedRequests := 0, 0, 0;
    }

    method IsBlocked(ip: string, now: int) returns (blocked: bool)
      modifies this`entries
      ensures blocked <==> Blocked(Get(old(entries), ip), now) && ip in old(entries)
      ensures entries == ApplyEvent(config, old(entries), Query(ip, now))
    {
      if ip !in entries { return false; }
      var e := entries[ip];
      if now < e.blockedUntil {
        assert entries == entries[ip := e];
        return true;
      }
      if e.blockedUntil != 0 {
        entries := entries[ip := Entry(now, 0, 0)];
      } else {
        assert entries == entries[ip := e];
      }
      return false;
    }

    method RecordSuspicious(ip: string, now: int)
      modifies this`entries, this`suspiciousRequests
      ensures suspiciousRequests == old(suspiciousRequests) + 1
      ensures entries == ApplyEvent(config, old(entries), Suspicious(ip, now))
    {
      suspiciousRequests := suspiciousRequests + 1;
      if ip == "" { return; }
      var e := Get(entries, ip);
      var windowStart, count, blockedUntil := e.windowStart, e.count, e.blockedUntil;
      if windowStart == 0 || now - windowStart > config.window {
        windowStart, count := now, 0;
      }
      count := count + 1;
      if count >= config.threshold {
        blockedUntil, windowStart, count := now + config.blockFor, now, 0;
      }
      entries := entries[ip := Entry(windowStart, count, blockedUntil)];
    }

    method RecordRequest()
      modifies this`totalRequests
      ensures totalRequests == old(totalRequests) + 1
    {
      totalRequests := totalRequests + 1;
    }

    method RecordBlockedRequest()
      modifies this`blockedRequests
      ensures blockedRequests == old(blockedRequests) + 1
    {
      blockedRequests := blockedRequests + 1;
    }

    /** Snapshot: the counters and the addresses that are blocked now, the longest block first. */
    method Snapshot(now: int) returns (r: TrafficStatus)
      ensures r.totalRequests == totalRequests && r.suspiciousRequests == suspiciousRequests
      ensures r.blockedRequests == blockedRequests && r.activeBlocked == |r.blocked|
      ensures Ordered(r.blocked)
      ensures forall b :: b in r.blocked <==>
                b.ip in entries && Blocked(entries[b.ip], now) && b.until == entries[b.ip].blockedUntil
    {
      hide Ordered;
      var blocked: seq<BlockedIp> := [];
      var rest := entries.Keys;
      NoneOrdered();
      while rest != {}
        invariant rest <= entries.Keys && Ordered(blocked)
        invariant forall b :: b in blocked <==> b.ip in entries && b.ip !in rest && Blocked(entries[b.ip], now) &&
                                                b.until == entries[b.ip].blockedUntil
      {
        var ip :| ip in rest;
        rest := rest - {ip};
        if now < entries[ip].blockedUntil {
          var b := BlockedIp(ip, entries[ip].blockedUntil);
          InsertedIsOrdered(b, blocked);
          blocked := Inserted(b, blocked);
        }
      }
      r := TrafficStatus(totalRequests, suspiciousRequests, blockedRequests, |blocked|, blocked);
    }
  }

  datatype BlockedIp = BlockedIp(ip: string, until: int)

  datatype TrafficStatus = TrafficStatus(totalRequests: int, suspiciousRequests: int, blockedRequests: int,
                                         activeBlocked: int, blocked: seq<BlockedIp>)

  /** The order of the listing: later ends first, then by address. */
  predicate Before(a: BlockedIp, b: BlockedIp) { a.until > b.until || (a.until == b.until && Less(a.ip, b.ip)) }

  ghost predicate Ordered(list: seq<BlockedIp>) { forall i, j :: 0 <= i < j < |list| ==> Before(list[i], list[j]) }

  /** slices.SortFunc, one element at a time. */
  function Inserted(b: BlockedIp, list: seq<BlockedIp>): seq<BlockedIp> {
    if list == [] || Before(b, list[0]) then [b] + list else [list[0]] + Inserted(b, list[1..])
  }

  lemma NoneOrdered()
    ensures Ordered([])
  {
  }

  lemma BeforeTransitive(a: BlockedIp, b: BlockedIp, c: BlockedIp)
    requires Before(a, b) && Before(b, c)
    ensures Before(a, c)
  {
    hide Leq;
    if a.until == b.until == c.until {
      LeqTransitive(a.ip, b.ip, c.ip);
      if a.ip == c.ip { LeqAntisymmetric(a.ip, b.ip); }
    }
  }

  lemma {:induction false} InsertedIsOrdered(b: BlockedIp, list: seq<BlockedIp>)
    requires Ordered(list) && forall x :: x in list ==> x.ip != b.ip
    ensures Ordered(Inserted(b, list)) && forall x :: x in Inserted(b, list) <==> x in list || x == b
  {
    hide Leq;
    if list != [] {
      var first, rest := list[0], list[1..];
      assert list == [first] + rest;
      if Before(b, first) {
        forall j | 0 <= j < |list| ensures Before(b, list[j]) {
          if j > 0 { BeforeTransitive(b, first, list[j]); }
        }
      } else {
        assert first in list;
        LeqTotal(b.ip, first.ip);
        InsertedIsOrdered(b, rest);
        forall x | x in Inserted(b, rest) ensures Before(first, x) {
          if x != b { var j :| 0 <= j < |rest| && rest[j] == x; assert list[j + 1] == x; }
        }
      }
    }
  }

  // ---------------------------------------------------------------- histories

  datatype Event = Suspicious(ip: string, at: int) | Query(ip: string, at: int)

  function ApplyEvent(c: Config, es: Entries, e: Event): Entries {
    match e
    case Suspicious(ip, now) => if ip == "" then es else es[ip := AfterSuspicious(c, Get(es, ip), now)]
    case Query(ip, now) => if ip !in es then es else es[ip := AfterQuery(es[ip], now)]
  }

  function Run(c: Config, events: seq<Event>): Entries {
    if events == [] then map[] else ApplyEvent(c, Run(c, events[..|events| - 1]), events[|events| - 1])
  }

  /** A clock that does not run backwards, after the zero time. */
  predicate Monotone(events: seq<Event>) {
    && (forall i :: 0 <= i < |events| ==> events[i].at > 0)
    && (forall i, j :: 0 <= i < j < |events| ==> events[i].at <= events[j].at)
  }

  /** Suspicious requests of an address in a closed interval. */
  function CountIn(events: seq<Event>, ip: string, lo: int, hi: int): nat {
    if events == [] then 0
    else
      var e := events[|events| - 1];
      CountIn(events[..|events| - 1], ip, lo, hi) + (if e.Suspicious? && e.ip == ip && lo <= e.at <= hi then 1 else 0)
  }

  /** The address was blocked by the k-th event. */
  predicate BlockedBy(c: Config, events: seq<Event>, k: int, ip: string) {
    && 0 <= k < |events| && events[k].Suspicious? && events[k].ip == ip && ip != ""
    && Get(Run(c, events[..k + 1]), ip).blockedUntil == events[k].at + c.blockFor
    && Get(Run(c, events[..k + 1]), ip).count == 0
  }

  function LastTime(events: seq<Event>): int { if events == [] then 1 else events[|events| - 1].at }

  /** What an entry says about the past: it counts suspicious requests since its window started, and
      the count is below the threshold. */
  ghost predicate EntryFits(c: Config, events: seq<Event>, ip: string) {
    var e := Get(Run(c, events), ip);
    && 0 <= e.count < c.threshold && (e.windowStart == 0 ==> e.count == 0)
    && 0 <= e.windowStart <= LastTime(events)
    && (e.windowStart != 0 ==> e.count <= CountIn(events, ip, e.windowStart, LastTime(events)))
    && (e.blockedUntil == 0 || exists k :: BlockedBy(c, events, k, ip) && e.blockedUntil == events[k].at + c.blockFor)
  }

  lemma {:induction false} CountMonotone(events: seq<Event>, ip: string, lo: int, hi: int, lo': int, hi': int)
    requires lo' <= lo && hi <= hi'
    ensures CountIn(events, ip, lo, hi) <= CountIn(events, ip, lo', hi')
  {
    if events != [] { CountMonotone(events[..|events| - 1], ip, lo, hi, lo', hi'); }
  }

  lemma MonotonePrefix(events: seq<Event>, k: nat)
    requires Monotone(events) && k <= |events|
    ensures Monotone(events[..k])
  {
  }

  lemma RunAppend(c: Config, events: seq<Event>, k: nat)
    requires k < |events|
    ensures Run(c, events[..k + 1]) == ApplyEvent(c, Run(c, events[..k]), events[k])
  {
    assert events[..k + 1][..k] == events[..k];
  }

  lemma {:induction false} BlockedByPrefix(c: Config, events: seq<Event>, n: nat, k: int, ip: string)
    requires n <= |events| && BlockedBy(c, events[..n], k, ip)
    ensures BlockedBy(c, events, k, ip)
  {
    assert events[..n][..k + 1] == events[..k + 1];
  }

  /** One more event keeps the entry in step with the history. */
  lemma EntryStep(c: Config, events: seq<Event>, ip: string)
    requires ValidConfig(c) && Monotone(events) && events != [] && EntryFits(c, events[..|events| - 1], ip)
    ensures EntryFits(c, events, ip)
  {
    hide Run, Monotone;
    var n := |events| - 1;
    var before, e := events[..n], events[n];
    var was, now := Get(Run(c, before), ip), Get(Run(c, events), ip);
    assert events[..n + 1] == events;
    RunAppend(c, events, n);
    LastTimeGrows(events);
    if was.windowStart != 0 { CountMonotone(before, ip, was.windowStart, LastTime(before), was.windowStart, e.at); }
    if was.blockedUntil != 0 {
      var k :| BlockedBy(c, before, k, ip) && was.blockedUntil == before[k].at + c.blockFor;
      BlockedByPrefix(c, events, n, k, ip);
    }
    if e.Suspicious? && e.ip == ip && ip != "" && now.blockedUntil == e.at + c.blockFor && now.count == 0 {
      assert BlockedBy(c, events, n, ip);
    }
  }

  lemma LastTimeGrows(events: seq<Event>)
    requires Monotone(events) && events != []
    ensures 0 < LastTime(events[..|events| - 1]) <= LastTime(events) == events[|events| - 1].at
  {
  }

  /** Over every history the count of every address stays below the threshold and is backed by that
      many suspicious requests since the window started. */
  lemma {:induction false} EntriesFit(c: Config, events: seq<Event>, ip: string)
    requires ValidConfig(c) && Monotone(events)
    ensures EntryFits(c, events, ip)
  {
    hide Run, EntryFits;
    if events == [] {
      StartFits(c, ip);
    } else {
      MonotonePrefix(events, |events| - 1);
      EntriesFit(c, events[..|events| - 1], ip);
      EntryStep(c, events, ip);
    }
  }

  lemma StartFits(c: Config, ip: string)
    requires ValidConfig(c)
    ensures EntryFits(c, [], ip)
  {
  }

  /** An address is only blocked after threshold suspicious requests within one closed window. */
  lemma BlockNeedsThreshold(c: Config, events: seq<Event>, k: int, ip: string)
    requires ValidConfig(c) && Monotone(events) && BlockedBy(c, events, k, ip)
    ensures CountIn(events[..k + 1], ip, events[k].at - c.window, events[k].at) >= c.threshold
  {
    hide Run, Monotone;
    var before, e := events[..k], events[k];
    MonotonePrefix(events, k);
    MonotonePrefix(events, k + 1);
    EntriesFit(c, before, ip);
    RunAppend(c, events, k);
    LastTimeGrows(events[..k + 1]);
    assert events[..k + 1][..k] == before;
    var was := Get(Run(c, before), ip);
    var lo := e.at - c.window;
    if was.windowStart != 0 && e.at - was.windowStart <= c.window {
      CountMonotone(before, ip, was.windowStart, LastTime(before), lo, e.at);
    }
  }

  /** Suspicious requests in the closed window that ends at t. */
  function WindowCount(c: Config, events: seq<Event>, ip: string, t: int): nat { CountIn(events, ip, t - c.window, t) }

  /** An address with fewer than threshold suspicious requests in every closed interval of window
      length is never reported blocked. */
  lemma QuietIsNeverBlocked(c: Config, events: seq<Event>, ip: string, now: int)
    requires ValidConfig(c) && Monotone(events) && now >= LastTime(events)
    requires forall t :: WindowCount(c, events, ip, t) < c.threshold
    ensures !Blocked(Get(Run(c, events), ip), now)
  {
    hide Run, Monotone, CountIn;
    EntriesFit(c, events, ip);
    LastTimePositive(events);
    var e := Get(Run(c, events), ip);
    if e.blockedUntil != 0 {
      var k :| BlockedBy(c, events, k, ip) && e.blockedUntil == events[k].at + c.blockFor;
      BlockIsCrowded(c, events, k, ip);
    }
  }

  /** A blocking request closes a window with threshold suspicious requests. */
  lemma BlockIsCrowded(c: Config, events: seq<Event>, k: int, ip: string)
    requires ValidConfig(c) && Monotone(events) && BlockedBy(c, events, k, ip)
    ensures WindowCount(c, events, ip, events[k].at) >= c.threshold
  {
    hide Run, Monotone, CountIn;
    BlockNeedsThreshold(c, events, k, ip);
    CountPrefix(events, k + 1, ip, events[k].at - c.window, events[k].at);
  }

  lemma {:induction false} CountPrefix(events: seq<Event>, n: nat, ip: string, lo: int, hi: int)
    requires n <= |events|
    ensures CountIn(events[..n], ip, lo, hi) <= CountIn(events, ip, lo, hi)
  {
    if n == |events| {
      assert events[..n] == events;
    } else {
      CountPrefix(events[..|events| - 1], n, ip, lo, hi);
      assert events[..|events| - 1][..n] == events[..n];
    }
  }

  lemma LastTimePositive(events: seq<Event>)
    requires Monotone(events)
    ensures LastTime(events) > 0
  {
  }

  /** A block, once set, is reported at every time before it expires, whatever events come between. */
  lemma {:induction false} BlockHolds(c: Config, events: seq<Event>, k: int, ip: string, now: int)
    requires ValidConfig(c) && Monotone(events) && BlockedBy(c, events, k, ip)
    requires LastTime(events) <= now < events[k].at + c.blockFor
    ensures ip in Run(c, events) && Blocked(Get(Run(c, events), ip), now)
  {
    BlockLasts(c, events, k, ip, |events|);
    assert events[..|events|] == events;
  }

  lemma {:induction false} BlockLasts(c: Config, events: seq<Event>, k: int, ip: string, n: nat)
    requires ValidConfig(c) && Monotone(events) && BlockedBy(c, events, k, ip) && k < n <= |events|
    requires LastTime(events) < events[k].at + c.blockFor
    ensures ip in Run(c, events[..n]) && Get(Run(c, events[..n]), ip).blockedUntil >= events[k].at + c.blockFor
    decreases n
  {
    hide Run;
    if n == k + 1 {
      RunAppend(c, events, k);
    } else {
      BlockLasts(c, events, k, ip, n - 1);
      RunAppend(c, events, n - 1);
      assert events[k].at <= events[n - 1].at <= LastTime(events);
    }
  }

  /** Reported blocked means that some earlier event set a block that has not expired. */
  lemma BlockHasCause(c: Config, events: seq<Event>, ip: string, now: int) returns (k: int)
    requires ValidConfig(c) && Monotone(events) && now >= LastTime(events) && Blocked(Get(Run(c, events), ip), now)
    ensures BlockedBy(c, events, k, ip) && events[k].at <= now < events[k].at + c.blockFor
    ensures CountIn(events[..k + 1], ip, events[k].at - c.window, events[k].at) >= c.threshold
  {
    hide Run;
    EntriesFit(c, events, ip);
    LastTimePositive(events);
    k :| BlockedBy(c, events, k, ip) && Get(Run(c, events), ip).blockedUntil == events[k].at + c.blockFor;
    BlockNeedsThreshold(c, events, k, ip);
    assert events[k].at <= LastTime(events);
  }
}
