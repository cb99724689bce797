/** Bursts that the scanner limiter does block. One at a time, as a single handler calls it, 2 * threshold - 1
    suspicious requests within a window always contain a blocking one. Interleaved calls can need more,
    because a query that finds an expired block starts the count again; how many more is exact. */
module ScannerBursts {
  import opened Scanner

  // ---------------------------------------------------------------- a first burst

  predicate SuspiciousAt(events: seq<Event>, k: int, ip: string) {
    0 <= k < |events| && events[k].Suspicious? && events[k].ip == ip
  }

  /** The entry of an address that has been suspicious since `start`, with the threshold not reached. */
  lemma {:induction false} FirstWindow(c: Config, events: seq<Event>, ip: string, first: nat, n: nat)
    requires ValidConfig(c) && Monotone(events) && ip != "" && first < n <= |events|
    requires SuspiciousAt(events, first, ip) && forall k :: 0 <= k < first ==> !SuspiciousAt(events, k, ip)
    requires events[n - 1].at <= events[first].at + c.window
    requires CountIn(events[..n], ip, events[first].at, events[first].at + c.window) < c.threshold
    ensures var start := events[first].at;
            Get(Run(c, events[..n]), ip) == Entry(start, CountIn(events[..n], ip, start, start + c.window), 0)
    decreases n
  {
    hide Run, Monotone;
    var start := events[first].at;
    StepCount(c, events, ip, n - 1, start, start + c.window);
    if n == first + 1 {
      NothingBefore(c, events, ip, first, start, start + c.window);
      InOrder(events, first, first);
    } else {
      InOrder(events, first, n - 2);
      InOrder(events, n - 2, n - 1);
      FirstWindow(c, events, ip, first, n - 1);
    }
  }

  lemma InOrder(events: seq<Event>, i: nat, j: nat)
    requires Monotone(events) && i <= j < |events|
    ensures 0 < events[i].at <= events[j].at
  {
  }

  /** One more event: the entry and the number of suspicious requests. */
  lemma StepCount(c: Config, events: seq<Event>, ip: string, n: nat, lo: int, hi: int)
    requires n < |events|
    ensures Run(c, events[..n + 1]) == ApplyEvent(c, Run(c, events[..n]), events[n])
    ensures CountIn(events[..n + 1], ip, lo, hi) ==
            CountIn(events[..n], ip, lo, hi) +
              (if SuspiciousAt(events, n, ip) && lo <= events[n].at <= hi then 1 else 0)
  {
    hide Run;
    RunAppend(c, events, n);
    assert events[..n + 1][..n] == events[..n];
  }

  lemma {:induction false} NothingBefore(c: Config, events: seq<Event>, ip: string, n: nat, lo: int, hi: int)
    requires n <= |events| && forall k :: 0 <= k < n ==> !SuspiciousAt(events, k, ip)
    ensures ip !in Run(c, events[..n]) && CountIn(events[..n], ip, lo, hi) == 0
  {
    if n > 0 {
      NothingBefore(c, events, ip, n - 1, lo, hi);
      StepCount(c, events, ip, n - 1, lo, hi);
    }
  }

  /** The request that brings the first window of an address to the threshold blocks it. */
  lemma FirstBurstBlocks(c: Config, events: seq<Event>, ip: string, first: nat, k: nat)
    requires ValidConfig(c) && Monotone(events) && ip != "" && first <= k < |events|
    requires SuspiciousAt(events, first, ip) && forall i :: 0 <= i < first ==> !SuspiciousAt(events, i, ip)
    requires SuspiciousAt(events, k, ip) && events[k].at <= events[first].at + c.window
    requires CountIn(events[..k + 1], ip, events[first].at, events[first].at + c.window) == c.threshold
    ensures BlockedBy(c, events, k, ip)
  {
    hide Run, Monotone, CountIn;
    var start := events[first].at;
    InOrder(events, first, k);
    StepCount(c, events, ip, k, start, start + c.window);
    if k == first {
      NothingBefore(c, events, ip, first, start, start + c.window);
    } else {
      InOrder(events, k - 1, k);
      FirstWindow(c, events, ip, first, k);
    }
  }

  // ---------------------------------------------------------------- any burst

  ghost predicate BlocksWithin(c: Config, events: seq<Event>, ip: string, lo: int, hi: int) {
    exists k :: BlockedBy(c, events, k, ip) && lo <= events[k].at <= hi
  }

  /** The entry's window was not started by an event in the interval that begins at lo. */
  predicate OldWindow(e: Entry, lo: int) { e.windowStart == 0 || e.windowStart < lo }

  /** A query at the end of the interval would find the block expired. */
  predicate Pending(e: Entry, hi: int) { e.blockedUntil != 0 && e.blockedUntil <= hi }

  /** How many suspicious requests of the interval fit, without a block, into at most three windows: the
      one open at its start, one started inside it, and one started by a query that finds a block expired. */
  predicate Fits(c: Config, e: Entry, seen: int, lo: int, slack: int) {
    if OldWindow(e, lo) then seen <= e.count && (Pending(e, lo + c.window) ==> seen <= slack)
    else if Pending(e, lo + c.window) then seen <= slack + e.count
    else seen <= slack + c.threshold - 1 + e.count
  }

  predicate Sane(c: Config, e: Entry) {
    && 0 <= e.count < c.threshold && (e.windowStart == 0 ==> e.count == 0)
    && (e.count == 0 && e.blockedUntil != 0 ==> e.blockedUntil == e.windowStart + c.blockFor)
  }

  /** An event of the interval that does not block keeps the account. */
  lemma SuspiciousFits(c: Config, e: Entry, at: int, seen: int, lo: int, slack: nat)
    requires ValidConfig(c) && Sane(c, e) && 0 < at && lo <= at <= lo + c.window && Fits(c, e, seen, lo, slack)
    requires AfterSuspicious(c, e, at).count != 0
    requires OldWindow(AfterSuspicious(c, e, at), lo) && Pending(e, lo + c.window) ==> seen + 1 <= slack
    ensures Fits(c, AfterSuspicious(c, e, at), seen + 1, lo, slack)
  {
  }

  lemma QueryFits(c: Config, e: Entry, at: int, seen: int, lo: int, slack: nat)
    requires ValidConfig(c) && Sane(c, e) && 0 < at && lo <= at <= lo + c.window && Fits(c, e, seen, lo, slack)
    ensures Fits(c, AfterQuery(e, at), seen, lo, slack)
  {
  }

  lemma {:induction false} EntryIsSane(c: Config, events: seq<Event>, ip: string)
    requires ValidConfig(c) && Monotone(events)
    ensures Sane(c, Get(Run(c, events), ip))
  {
    if events != [] {
      var n := |events| - 1;
      MonotonePrefix(events, n);
      EntryIsSane(c, events[..n], ip);
      assert events[..n + 1] == events;
    }
  }

  /** What a block that expires inside the interval can add: nothing when the window is one instant or
      every request blocks; otherwise the requests still counted by the window open at the start, one
      fewer when that window cannot have been started by the block itself. */
  function Slack(c: Config): int {
    if c.window == 0 || c.threshold == 1 then 0
    else if c.blockFor > 2 * c.window then c.threshold - 2
    else c.threshold - 1
  }

  /** The requests of the interval counted by the window that was open at its start. */
  predicate OldShare(c: Config, e: Entry, seen: int, lo: int) {
    OldWindow(e, lo) ==>
      && (c.window == 0 ==> seen == 0)
      && (c.blockFor > 2 * c.window && Pending(e, lo + c.window) ==> seen == 0 || seen < e.count)
  }

  lemma OldShareStep(c: Config, e: Entry, at: int, seen: int, lo: int)
    requires ValidConfig(c) && Sane(c, e) && 0 < at && lo <= at <= lo + c.window
    requires Fits(c, e, seen, lo, Slack(c)) && OldShare(c, e, seen, lo) && 0 <= seen
    ensures OldShare(c, AfterQuery(e, at), seen, lo)
    ensures AfterSuspicious(c, e, at).count != 0 ==> OldShare(c, AfterSuspicious(c, e, at), seen + 1, lo)
    ensures var e' := AfterSuspicious(c, e, at);
            e'.count != 0 && OldWindow(e', lo) && Pending(e, lo + c.window) ==> seen + 1 <= Slack(c)
  {
  }

  predicate UpTo(events: seq<Event>, n: int, hi: int) {
    0 <= n <= |events| && forall k :: 0 <= k < n ==> events[k].at <= hi
  }

  lemma {:induction false} NoneBefore(events: seq<Event>, ip: string, lo: int, hi: int)
    requires forall k :: 0 <= k < |events| ==> events[k].at < lo
    ensures CountIn(events, ip, lo, hi) == 0
  {
    if events != [] { NoneBefore(events[..|events| - 1], ip, lo, hi); }
  }

  /** Before the interval nothing has been seen and every window is old. */
  lemma BeforeInterval(c: Config, events: seq<Event>, ip: string, lo: int, n: nat)
    requires ValidConfig(c) && Monotone(events) && n <= |events| && (n == 0 || events[n - 1].at < lo)
    ensures CountIn(events[..n], ip, lo, lo + c.window) == 0
    ensures OldWindow(Get(Run(c, events[..n]), ip), lo) && Get(Run(c, events[..n]), ip).count >= 0
  {
    hide Run, CountIn;
    if n > 0 {
      forall k | 0 <= k < n ensures events[..n][k].at < lo { InOrder(events, k, n - 1); }
      NoneBefore(events[..n], ip, lo, lo + c.window);
      MonotonePrefix(events, n);
      EntriesFit(c, events[..n], ip);
    } else {
      NoneAtAll(c, ip, lo, lo + c.window);
      assert events[..n] == [];
    }
  }

  lemma NoneAtAll(c: Config, ip: string, lo: int, hi: int)
    ensures Run(c, []) == map[] && CountIn([], ip, lo, hi) == 0
  {
  }

  /** What one event of the interval does to the address, if it does not block it. */
  lemma OneEvent(c: Config, events: seq<Event>, ip: string, lo: int, n: nat)
    requires ValidConfig(c) && Monotone(events) && ip != "" && n < |events| && lo <= events[n].at <= lo + c.window
    requires !BlocksWithin(c, events, ip, lo, lo + c.window)
    ensures var e, e' := Get(Run(c, events[..n]), ip), Get(Run(c, events[..n + 1]), ip);
            var seen := CountIn(events[..n], ip, lo, lo + c.window);
            var seen' := CountIn(events[..n + 1], ip, lo, lo + c.window);
            && Sane(c, e)
            && (if SuspiciousAt(events, n, ip)
                then e' == AfterSuspicious(c, e, events[n].at) && seen' == seen + 1 && e'.count != 0
                else seen' == seen && (e' == e || (events[n] == Query(ip, events[n].at) &&
                                                   e' == AfterQuery(e, events[n].at))))
  {
    hide Run, CountIn, Monotone;
    MonotonePrefix(events, n);
    EntryIsSane(c, events[..n], ip);
    StepCount(c, events, ip, n, lo, lo + c.window);
    if SuspiciousAt(events, n, ip) { EmptyCountBlocks(c, events, ip, lo, n); }
  }

  /** A suspicious request after which nothing is counted has blocked its address. */
  lemma EmptyCountBlocks(c: Config, events: seq<Event>, ip: string, lo: int, n: nat)
    requires ValidConfig(c) && Monotone(events) && ip != "" && SuspiciousAt(events, n, ip)
    requires lo <= events[n].at <= lo + c.window
    ensures Get(Run(c, events[..n + 1]), ip).count == 0 ==> BlocksWithin(c, events, ip, lo, lo + c.window)
  {
    hide Run, Monotone;
    MonotonePrefix(events, n);
    EntryIsSane(c, events[..n], ip);
    RunAppend(c, events, n);
    if Get(Run(c, events[..n + 1]), ip).count == 0 { assert BlockedBy(c, events, n, ip); }
  }

  lemma {:induction false} Accounted(c: Config, events: seq<Event>, ip: string, lo: int, n: nat)
    requires ValidConfig(c) && Monotone(events) && ip != "" && UpTo(events, n, lo + c.window)
    requires !BlocksWithin(c, events, ip, lo, lo + c.window)
    ensures var e, seen := Get(Run(c, events[..n]), ip), CountIn(events[..n], ip, lo, lo + c.window);
            Fits(c, e, seen, lo, Slack(c)) && OldShare(c, e, seen, lo)
  {
    hide Run, CountIn, Monotone, BlocksWithin, AfterSuspicious, AfterQuery;
    if n == 0 || events[n - 1].at < lo {
      BeforeInterval(c, events, ip, lo, n);
    } else {
      hide Fits, OldShare, Sane;
      Accounted(c, events, ip, lo, n - 1);
      OneEvent(c, events, ip, lo, n - 1);
      InOrder(events, n - 1, n - 1);
      var e, seen := Get(Run(c, events[..n - 1]), ip), CountIn(events[..n - 1], ip, lo, lo + c.window);
      OldShareStep(c, e, events[n - 1].at, seen, lo);
      SlackFits(c);
      if SuspiciousAt(events, n - 1, ip) {
        SuspiciousFits(c, e, events[n - 1].at, seen, lo, Slack(c));
      } else {
        QueryFits(c, e, events[n - 1].at, seen, lo, Slack(c));
      }
    }
  }

  lemma SlackFits(c: Config)
    requires ValidConfig(c)
    ensures 0 <= Slack(c) < c.threshold
  {
  }

  /** The events up to the end of the interval. */
  lemma {:induction false} CutAt(events: seq<Event>, ip: string, lo: int, hi: int) returns (n: nat)
    requires Monotone(events)
    ensures UpTo(events, n, hi) && CountIn(events[..n], ip, lo, hi) == CountIn(events, ip, lo, hi)
  {
    hide Monotone;
    n := |events|;
    assert events[..n] == events;
    if n > 0 && events[n - 1].at > hi {
      MonotonePrefix(events, n - 1);
      n := CutAt(events[..n - 1], ip, lo, hi);
      assert events[..|events| - 1][..n] == events[..n];
    } else {
      forall k | 0 <= k < n ensures events[k].at <= hi { InOrder(events, k, n - 1); }
    }
  }

  /** Over any history, 2 * threshold - 1 + Slack suspicious requests within one window block. */
  lemma BurstBlocks(c: Config, events: seq<Event>, ip: string, lo: int)
    requires ValidConfig(c) && Monotone(events) && ip != ""
    requires CountIn(events, ip, lo, lo + c.window) >= 2 * c.threshold - 1 + Slack(c)
    ensures BlocksWithin(c, events, ip, lo, lo + c.window)
  {
    hide Run, CountIn, Monotone, BlocksWithin;
    if !BlocksWithin(c, events, ip, lo, lo + c.window) {
      var n := CutAt(events, ip, lo, lo + c.window);
      Accounted(c, events, ip, lo, n);
      MonotonePrefix(events, n);
      EntryIsSane(c, events[..n], ip);
    }
  }

  // ---------------------------------------------------------------- one request at a time

  /** Every suspicious request is recorded right after its own query found the address not blocked. */
  ghost predicate OneAtATime(c: Config, events: seq<Event>, ip: string) {
    forall k :: SuspiciousAt(events, k, ip) ==>
      k > 0 && events[k - 1] == Query(ip, events[k].at) && !Blocked(Get(Run(c, events[..k - 1]), ip), events[k].at)
  }

  /** Then its entry has no block at that moment, expired or not. */
  lemma ClearedByQuery(c: Config, events: seq<Event>, ip: string, k: nat)
    requires OneAtATime(c, events, ip) && SuspiciousAt(events, k, ip)
    ensures Get(Run(c, events[..k]), ip).blockedUntil == 0
  {
    hide Run;
    assert k > 0 && events[k - 1] == Query(ip, events[k].at);
    RunAppend(c, events, k - 1);
  }

  lemma {:induction false} AccountedOneByOne(c: Config, events: seq<Event>, ip: string, lo: int, n: nat)
    requires ValidConfig(c) && Monotone(events) && ip != "" && UpTo(events, n, lo + c.window)
    requires OneAtATime(c, events, ip) && !BlocksWithin(c, events, ip, lo, lo + c.window)
    ensures var e, seen := Get(Run(c, events[..n]), ip), CountIn(events[..n], ip, lo, lo + c.window);
            Fits(c, e, seen, lo, 0) && (e.blockedUntil != 0 ==> seen == 0)
  {
    hide Run, CountIn, Monotone, BlocksWithin, OneAtATime;
    if n == 0 || events[n - 1].at < lo {
      BeforeInterval(c, events, ip, lo, n);
    } else {
      AccountedOneByOne(c, events, ip, lo, n - 1);
      OneEvent(c, events, ip, lo, n - 1);
      InOrder(events, n - 1, n - 1);
      var e, seen := Get(Run(c, events[..n - 1]), ip), CountIn(events[..n - 1], ip, lo, lo + c.window);
      if SuspiciousAt(events, n - 1, ip) {
        ClearedByQuery(c, events, ip, n - 1);
        SuspiciousFits(c, e, events[n - 1].at, seen, lo, 0);
      } else {
        QueryFits(c, e, events[n - 1].at, seen, lo, 0);
      }
    }
  }

  /** Served one at a time, 2 * threshold - 1 suspicious requests within one window block. */
  lemma ServedBurstBlocks(c: Config, events: seq<Event>, ip: string, lo: int)
    requires ValidConfig(c) && Monotone(events) && ip != "" && OneAtATime(c, events, ip)
    requires CountIn(events, ip, lo, lo + c.window) >= 2 * c.threshold - 1
    ensures BlocksWithin(c, events, ip, lo, lo + c.window)
  {
    hide Run, CountIn, Monotone, BlocksWithin, OneAtATime;
    if !BlocksWithin(c, events, ip, lo, lo + c.window) {
      var n := CutAt(events, ip, lo, lo + c.window);
      AccountedOneByOne(c, events, ip, lo, n);
      MonotonePrefix(events, n);
      EntryIsSane(c, events[..n], ip);
    }
  }

  // ---------------------------------------------------------------- the slack is needed

  /** A history without a block in the interval, its last time, its entry and what it has in the interval. */
  ghost predicate Reached(c: Config, events: seq<Event>, ip: string, lo: int, at: int, e: Entry, seen: int) {
    && Monotone(events) && LastTime(events) <= at && Get(Run(c, events), ip) == e
    && CountIn(events, ip, lo, lo + c.window) == seen && !BlocksWithin(c, events, ip, lo, lo + c.window)
  }

  lemma AppendKeeps(c: Config, events: seq<Event>, ip: string, lo: int, more: Event)
    requires Monotone(events) && LastTime(events) <= more.at && 0 < more.at
    requires !BlocksWithin(c, events, ip, lo, lo + c.window)
    requires lo <= more.at && more.Suspicious? && more.ip == ip ==> Get(Run(c, events + [more]), ip).count != 0
    ensures Monotone(events + [more]) && !BlocksWithin(c, events + [more], ip, lo, lo + c.window)
  {
    hide Run;
    var after := events + [more];
    forall k | BlockedBy(c, after, k, ip) ensures !(lo <= after[k].at <= lo + c.window) {
      if k < |events| {
        assert after[..k + 1] == events[..k + 1];
        assert BlockedBy(c, events, k, ip);
      } else {
        assert after[..k + 1] == after;
      }
    }
  }

  lemma AddOne(c: Config, events: seq<Event>, ip: string, lo: int, was: int, e: Entry, seen: int, at: int)
    returns (after: seq<Event>)
    requires Reached(c, events, ip, lo, was, e, seen) && ip != "" && was <= at && 0 < at <= lo + c.window
    requires at < lo || AfterSuspicious(c, e, at).count != 0
    ensures Reached(c, after, ip, lo, at, AfterSuspicious(c, e, at), seen + if at < lo then 0 else 1)
  {
    hide Run, CountIn, Monotone, BlocksWithin, AfterSuspicious;
    after := events + [Suspicious(ip, at)];
    assert after[..|events|] == events && after[..|events| + 1] == after;
    StepCount(c, after, ip, |events|, lo, lo + c.window);
    AppendKeeps(c, events, ip, lo, Suspicious(ip, at));
  }

  /** n more requests in an open window that stays below the threshold. */
  lemma {:induction false} AddMany(c: Config, events: seq<Event>, ip: string, lo: int, was: int, e: Entry, seen: int,
                                   at: int, n: nat)
    returns (after: seq<Event>)
    requires Reached(c, events, ip, lo, was, e, seen) && ip != "" && was <= at && 0 < at <= lo + c.window
    requires e.windowStart != 0 && at - e.windowStart <= c.window && 0 <= e.count && e.count + n < c.threshold
    ensures Reached(c, after, ip, lo, at, e.(count := e.count + n), seen + if at < lo then 0 else n)
    decreases n
  {
    hide Run, CountIn, Monotone, BlocksWithin;
    after := events;
    if n > 0 {
      after := AddOne(c, events, ip, lo, was, e, seen, at);
      after := AddMany(c, after, ip, lo, at, e.(count := e.count + 1), seen + (if at < lo then 0 else 1), at, n - 1);
    }
  }

  lemma AddQuery(c: Config, events: seq<Event>, ip: string, lo: int, was: int, e: Entry, seen: int, at: int)
    returns (after: seq<Event>)
    requires Reached(c, events, ip, lo, was, e, seen) && ip != "" && was <= at && 0 < at <= lo + c.window
    ensures Reached(c, after, ip, lo, at, AfterQuery(e, at), seen)
  {
    hide Run, CountIn, Monotone, BlocksWithin;
    after := events + [Query(ip, at)];
    assert after[..|events|] == events && after[..|events| + 1] == after;
    StepCount(c, after, ip, |events|, lo, lo + c.window);
    AppendKeeps(c, events, ip, lo, Query(ip, at));
  }

  /** An address blocked at time 1, before the interval. */
  lemma BlockFirst(c: Config, ip: string, lo: int) returns (after: seq<Event>)
    requires ValidConfig(c) && c.threshold >= 2 && ip != "" && 1 < lo
    ensures Reached(c, after, ip, lo, 1, Entry(1, 0, 1 + c.blockFor), 0)
  {
    NothingReached(c, ip, lo);
    hide Reached;
    after := AddOne(c, [], ip, lo, 1, ZERO, 0, 1);
    after := AddMany(c, after, ip, lo, 1, Entry(1, 1, 0), 0, 1, c.threshold - 2);
    after := AddOne(c, after, ip, lo, 1, Entry(1, c.threshold - 1, 0), 0, 1);
  }

  lemma NothingReached(c: Config, ip: string, lo: int)
    ensures Reached(c, [], ip, lo, 1, ZERO, 0)
  {
  }

  /** At the end of the interval: a new window just below the threshold, a query that finds the block
      expired, and another window just below the threshold. */
  lemma TwoMoreWindows(c: Config, events: seq<Event>, ip: string, lo: int, was: int, e: Entry, seen: int)
    returns (after: seq<Event>)
    requires ValidConfig(c) && c.threshold >= 2 && ip != "" && 0 < lo && was <= lo + c.window
    requires Reached(c, events, ip, lo, was, e, seen) && lo + c.window - e.windowStart > c.window
    requires e.blockedUntil != 0 && e.blockedUntil <= lo + c.window
    ensures Reached(c, after, ip, lo, lo + c.window, Entry(lo + c.window, c.threshold - 1, 0),
                    seen + 2 * (c.threshold - 1))
  {
    hide Reached;
    var hi, t := lo + c.window, c.threshold;
    after := AddOne(c, events, ip, lo, was, e, seen, hi);
    after := AddMany(c, after, ip, lo, hi, Entry(hi, 1, e.blockedUntil), seen + 1, hi, t - 2);
    after := AddQuery(c, after, ip, lo, hi, Entry(hi, t - 1, e.blockedUntil), seen + t - 1, hi);
    after := AddMany(c, after, ip, lo, hi, Entry(hi, 0, 0), seen + t - 1, hi, t - 1);
  }

  /** For every configuration some history has one request less than the bound and no block. */
  lemma SlackIsNeeded(c: Config, ip: string) returns (events: seq<Event>, lo: int)
    requires ValidConfig(c) && ip != ""
    ensures Monotone(events) && CountIn(events, ip, lo, lo + c.window) == 2 * c.threshold - 2 + Slack(c)
    ensures !BlocksWithin(c, events, ip, lo, lo + c.window)
  {
    hide Run, CountIn, Monotone, BlocksWithin;
    var t, w, b := c.threshold, c.window, c.blockFor;
    if t == 1 {
      events, lo := [], 1;
      NothingReached(c, ip, lo);
    } else if w == 0 {
      lo := b + 2;
      events := BlockFirst(c, ip, lo);
      events := TwoMoreWindows(c, events, ip, lo, 1, Entry(1, 0, 1 + b), 0);
    } else if b > 2 * w {
      lo := w + b + 3;
      events := BlockFirst(c, ip, lo);
      events := WindowBefore(c, events, ip, lo);
      events := TwoMoreWindows(c, events, ip, lo, lo, Entry(lo - 1, t - 1, 1 + b), t - 2);
    } else {
      lo := 1 + w;
      events := BlockFirst(c, ip, lo);
      events := AddMany(c, events, ip, lo, 1, Entry(1, 0, 1 + b), 0, lo, t - 1);
      events := TwoMoreWindows(c, events, ip, lo, lo, Entry(1, t - 1, 1 + b), t - 1);
    }
  }

  /** A window started one instant before the interval, with the rest of its requests inside. */
  lemma WindowBefore(c: Config, events: seq<Event>, ip: string, lo: int) returns (after: seq<Event>)
    requires ValidConfig(c) && c.threshold >= 2 && c.window > 0 && ip != "" && lo > c.window + 2
    requires Reached(c, events, ip, lo, 1, Entry(1, 0, 1 + c.blockFor), 0)
    ensures Reached(c, after, ip, lo, lo, Entry(lo - 1, c.threshold - 1, 1 + c.blockFor), c.threshold - 2)
  {
    hide Reached;
    after := AddOne(c, events, ip, lo, 1, Entry(1, 0, 1 + c.blockFor), 0, lo - 1);
    after := AddMany(c, after, ip, lo, lo - 1, Entry(lo - 1, 1, 1 + c.blockFor), 0, lo, c.threshold - 2);
  }

  predicate Burst(c: Config, events: seq<Event>, ip: string, lo: int, size: int) {
    Monotone(events) && ip != "" && CountIn(events, ip, lo, lo + c.window) >= size
  }

  /** Every burst of the size, in every history, holds a blocking request. */
  ghost predicate BurstsBlock(c: Config, size: int) {
    forall events, ip, lo :: Burst(c, events, ip, lo, size) ==> BlocksWithin(c, events, ip, lo, lo + c.window)
  }

  /** The number of suspicious requests within one window that always blocks, whatever the history. */
  lemma BurstBlocksExactly(c: Config, size: int)
    requires ValidConfig(c)
    ensures BurstsBlock(c, size) <==> size >= 2 * c.threshold - 1 + Slack(c)
  {
    hide Run, CountIn, Monotone, BlocksWithin, Slack;
    if size >= 2 * c.threshold - 1 + Slack(c) {
      forall events, ip, lo | Burst(c, events, ip, lo, size)
        ensures BlocksWithin(c, events, ip, lo, lo + c.window)
      {
        BurstBlocks(c, events, ip, lo);
      }
    } else {
      var events, lo := SlackIsNeeded(c, "a");
      assert Burst(c, events, "a", lo, size);
    }
  }

  /** So 2 * threshold - 1 requests are enough for every history exactly when there is no slack, and
      neither profile is such a configuration. */
  lemma PlainBoundExactly(c: Config)
    requires ValidConfig(c)
    ensures BurstsBlock(c, 2 * c.threshold - 1) <==>
            c.window == 0 || c.threshold == 1 || (c.threshold == 2 && c.blockFor > 2 * c.window)
    ensures !BurstsBlock(STRICT, 11) && BurstsBlock(STRICT, 15)
    ensures !BurstsBlock(STANDARD, 23) && BurstsBlock(STANDARD, 33)
  {
    hide BurstsBlock;
    BurstBlocksExactly(c, 2 * c.threshold - 1);
    BurstBlocksExactly(STRICT, 11);
    BurstBlocksExactly(STRICT, 15);
    BurstBlocksExactly(STANDARD, 23);
    BurstBlocksExactly(STANDARD, 33);
  }
}
