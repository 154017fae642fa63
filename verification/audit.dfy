/** The audit trail and the rate-limit table that share one database. */
module Audit {
  import opened Text

  datatype AuditEvent = AuditEvent(timestamp: nat, intentId: string, event: string)

  datatype Tick = Tick(wallet: string, at: nat)

  function Count(ticks: seq<Tick>, wallet: string, since: int): nat {
    if ticks == [] then 0
    else
      var last := ticks[|ticks| - 1];
      Count(ticks[..|ticks| - 1], wallet, since) + (if last.wallet == wallet && last.at > since then 1 else 0)
  }

  function Keep(ticks: seq<Tick>, cutoff: int): seq<Tick> {
    if ticks == [] then []
    else
      var last := ticks[|ticks| - 1];
      var rest := Keep(ticks[..|ticks| - 1], cutoff);
      if last.at > cutoff then rest + [last] else rest
  }

  /** e in its place by time, after events of the same time. */
  function InOrder(trail: seq<AuditEvent>, e: AuditEvent): seq<AuditEvent> {
    if trail == [] || trail[|trail| - 1].timestamp <= e.timestamp then trail + [e]
    else InOrder(trail[..|trail| - 1], e) + [trail[|trail| - 1]]
  }

  function Trail(events: seq<AuditEvent>, intentId: string): seq<AuditEvent> {
    if events == [] then []
    else
      var last := events[|events| - 1];
      var rest := Trail(events[..|events| - 1], intentId);
      if last.intentId == intentId then InOrder(rest, last) else rest
  }

  predicate Chronological(events: seq<AuditEvent>) {
    forall j, k | 0 <= j < k < |events| :: events[j].timestamp <= events[k].timestamp
  }

  lemma {:induction false} InOrderContents(trail: seq<AuditEvent>, e: AuditEvent)
    ensures multiset(InOrder(trail, e)) == multiset(trail) + multiset{e}
  {
    if trail != [] {
      var n := |trail| - 1;
      assert trail == trail[..n] + [trail[n]];
      if trail[n].timestamp > e.timestamp { InOrderContents(trail[..n], e); }
    }
  }

  lemma {:induction false} InOrderIsChronological(trail: seq<AuditEvent>, e: AuditEvent)
    requires Chronological(trail)
    ensures Chronological(InOrder(trail, e))
  {
    if trail != [] && trail[|trail| - 1].timestamp > e.timestamp {
      var n := |trail| - 1;
      var front := InOrder(trail[..n], e);
      InOrderIsChronological(trail[..n], e);
      NotLater(trail, e, front);
    }
  }

  lemma NotLater(trail: seq<AuditEvent>, e: AuditEvent, front: seq<AuditEvent>)
    requires trail != [] && Chronological(trail) && trail[|trail| - 1].timestamp > e.timestamp
    requires front == InOrder(trail[..|trail| - 1], e)
    ensures forall k :: 0 <= k < |front| ==> front[k].timestamp <= trail[|trail| - 1].timestamp
  {
    hide InOrder;
    var n := |trail| - 1;
    InOrderContents(trail[..n], e);
    forall k | 0 <= k < |front| ensures front[k].timestamp <= trail[n].timestamp {
      assert front[k] in multiset(front);
      assert front[k] == e || front[k] in trail[..n];
    }
  }

  lemma {:induction false} TrailContents(events: seq<AuditEvent>, id: string, e: AuditEvent)
    ensures multiset(Trail(events, id))[e] == if e.intentId == id then multiset(events)[e] else 0
  {
    if events != [] {
      var n := |events| - 1;
      TrailContents(events[..n], id, e);
      InOrderContents(Trail(events[..n], id), events[n]);
      assert events == events[..n] + [events[n]];
    }
  }

  lemma {:induction false} TrailIsChronological(events: seq<AuditEvent>, id: string)
    ensures Chronological(Trail(events, id))
  {
    hide Chronological;
    if events == [] {
      assert Chronological([]) by { EmptyIsChronological(); }
    } else {
      TrailIsChronological(events[..|events| - 1], id);
      InOrderIsChronological(Trail(events[..|events| - 1], id), events[|events| - 1]);
    }
  }

  lemma EmptyIsChronological()
    ensures Chronological([])
  {
  }

  class AuditTraceService {
    var events: seq<AuditEvent>
    var ticks: seq<Tick>

    constructor ()
      ensures events == [] && ticks == []
    {
      events, ticks := [], [];
    }

    method Log(event: string, intentId: string, now: nat)
      modifies this`events
      ensures events == old(events) + [AuditEvent(now, intentId, event)]
    {
      events := events + [AuditEvent(now, intentId, event)];
    }

    /** All events of one intent, oldest first, in whatever order they were logged. */
    method GetTrail(intentId: string) returns (trail: seq<AuditEvent>)
      ensures Chronological(trail)
      ensures forall e :: multiset(trail)[e] == if e.intentId == intentId then multiset(events)[e] else 0
    {
      hide Chronological;
      trail := [];
      for k := 0 to |events|
        invariant trail == Trail(events[..k], intentId)
      {
        assert events[..k + 1][..k] == events[..k];
        if events[k].intentId == intentId { trail := InOrder(trail, events[k]); }
      }
      assert events[..|events|] == events;
      TrailIsChronological(events, intentId);
      forall e ensures multiset(trail)[e] == if e.intentId == intentId then multiset(events)[e] else 0 {
        TrailContents(events, intentId, e);
      }
    }

    /** Refuses a text that is not an address. */
    method RecordRateLimitTick(wallet: string, now: nat) returns (ok: bool)
      modifies this`ticks
      ensures ok <==> IsAddress(wallet)
      ensures ticks == if ok then old(ticks) + [Tick(wallet, now)] else old(ticks)
    {
      ok := IsAddress(wallet);
      if ok { ticks := ticks + [Tick(wallet, now)]; }
    }

    method CountRecentTxByWallet(wallet: string, windowMs: nat, now: nat) returns (count: nat)
      ensures count == Count(ticks, wallet, now - windowMs)
      ensures count == |Places(ticks, wallet, now, windowMs)|
    {
      CountIsCardinality(ticks, wallet, now - windowMs, now, windowMs);
      var since := now - windowMs;
      count := 0;
      for k := 0 to |ticks|
        invariant count == Count(ticks[..k], wallet, since)
      {
        assert ticks[..k + 1][..k] == ticks[..k];
        if ticks[k].wallet == wallet && ticks[k].at > since { count := count + 1; }
      }
      assert ticks[..|ticks|] == ticks;
    }

    method CleanupRateLimitEvents(windowMs: nat, now: nat) returns (changes: int)
      modifies this`ticks
      ensures ticks == Keep(old(ticks), now - windowMs)
      ensures forall t :: multiset(ticks)[t] == if now - t.at < windowMs then multiset(old(ticks))[t] else 0
      ensures changes == |old(ticks)| - |ticks|
    {
      KeepIsExact(ticks, windowMs, now);
      var kept: seq<Tick> := [];
      for k := 0 to |ticks|
        invariant kept == Keep(ticks[..k], now - windowMs)
        invariant ticks == old(ticks)
      {
        assert ticks[..k + 1][..k] == ticks[..k];
        if ticks[k].at > now - windowMs { kept := kept + [ticks[k]]; }
      }
      assert ticks[..|ticks|] == ticks;
      changes := |ticks| - |kept|;
      ticks := kept;
    }
  }

  /** The places of the wallet's ticks that are younger than the window. */
  function Places(ticks: seq<Tick>, wallet: string, now: nat, window: nat): set<nat> {
    set k: nat | k < |ticks| && ticks[k].wallet == wallet && now - ticks[k].at < window
  }

  lemma {:induction false} CountIsCardinality(ticks: seq<Tick>, wallet: string, since: int, now: nat, window: nat)
    requires since == now - window
    ensures Count(ticks, wallet, since) == |Places(ticks, wallet, now, window)|
  {
    if ticks != [] {
      var n := |ticks| - 1;
      var fewer := Places(ticks[..n], wallet, now, window);
      CountIsCardinality(ticks[..n], wallet, since, now, window);
      assert Places(ticks, wallet, now, window) ==
        if ticks[n].wallet == wallet && now - ticks[n].at < window then fewer + {n} else fewer;
    }
  }

  lemma {:induction false} KeepContents(ticks: seq<Tick>, cutoff: int, t: Tick)
    ensures multiset(Keep(ticks, cutoff))[t] == if t.at > cutoff then multiset(ticks)[t] else 0
  {
    if ticks != [] {
      var n := |ticks| - 1;
      KeepContents(ticks[..n], cutoff, t);
      assert ticks == ticks[..n] + [ticks[n]];
    }
  }

  lemma KeepIsExact(ticks: seq<Tick>, window: nat, now: nat)
    ensures forall t :: multiset(Keep(ticks, now - window))[t] == if now - t.at < window then multiset(ticks)[t] else 0
  {
    hide Keep;
    forall t ensures multiset(Keep(ticks, now - window))[t] == if now - t.at < window then multiset(ticks)[t] else 0 {
      KeepContents(ticks, now - window, t);
    }
  }

  lemma {:induction false} KeepLeavesCount(ticks: seq<Tick>, cutoff: int, wallet: string, since: int)
    requires cutoff <= since
    ensures Count(Keep(ticks, cutoff), wallet, since) == Count(ticks, wallet, since)
  {
    if ticks != [] {
      var n := |ticks| - 1;
      KeepLeavesCount(ticks[..n], cutoff, wallet, since);
      if ticks[n].at > cutoff {
        assert (Keep(ticks[..n], cutoff) + [ticks[n]])[..|Keep(ticks[..n], cutoff)|] == Keep(ticks[..n], cutoff);
      }
    }
  }

  lemma {:induction false} CountConcat(a: seq<Tick>, b: seq<Tick>, wallet: string, since: int)
    ensures Count(a + b, wallet, since) == Count(a, wallet, since) + Count(b, wallet, since)
  {
    if b == [] {
      assert a + b == a;
    } else {
      var n := |b| - 1;
      assert (a + b)[..|a| + n] == a + b[..n];
      CountConcat(a, b[..n], wallet, since);
    }
  }

  /** A cleanup with a window no shorter than the counting window changes no later count,
      whatever is recorded in between. */
  lemma CleanupIsInvisible(ticks: seq<Tick>, more: seq<Tick>, wallet: string,
                           cleanupWindow: nat, cleanedAt: nat, window: nat, countedAt: nat)
    requires window <= cleanupWindow && cleanedAt <= countedAt
    ensures Count(Keep(ticks, cleanedAt - cleanupWindow) + more, wallet, countedAt - window) ==
            Count(ticks + more, wallet, countedAt - window)
  {
    var since := countedAt - window;
    CountConcat(Keep(ticks, cleanedAt - cleanupWindow), more, wallet, since);
    CountConcat(ticks, more, wallet, since);
    KeepLeavesCount(ticks, cleanedAt - cleanupWindow, wallet, since);
  }
}

/** The sliding-window limiter over whole runs: the table that is cleaned, and the record
    of every tick ever made. */
module RateLimit {
  import opened Audit
  import Text

  const RATE_LIMIT_WINDOW_MS: nat := 3_600_000

  datatype Ledger = Ledger(table: seq<Tick>, ever: seq<Tick>)

  function Recent(l: Ledger, wallet: string, now: nat): nat {
    Count(l.table, wallet, now - RATE_LIMIT_WINDOW_MS)
  }

  function Record(l: Ledger, wallet: string, now: nat): Ledger {
    Ledger(l.table + [Tick(wallet, now)], l.ever + [Tick(wallet, now)])
  }

  function Sweep(l: Ledger, window: nat, now: nat): Ledger {
    l.(table := Keep(l.table, now - window))
  }

  /** Ticks of one wallet text with lo <= at < hi. */
  function CountIn(ticks: seq<Tick>, wallet: string, lo: int, hi: int): nat {
    if ticks == [] then 0
    else
      var last := ticks[|ticks| - 1];
      CountIn(ticks[..|ticks| - 1], wallet, lo, hi) +
      (if last.wallet == wallet && lo <= last.at < hi then 1 else 0)
  }

  /** Inside the window the cleaned table counts like the full record. */
  ghost predicate Faithful(l: Ledger, now: nat) {
    forall wallet, since :: since >= now - RATE_LIMIT_WINDOW_MS ==>
      Count(l.table, wallet, since) == Count(l.ever, wallet, since)
  }

  /** Every tick was made while fewer than max were recent. */
  ghost predicate Throttled(ever: seq<Tick>, max: nat) {
    forall k | 0 <= k < |ever| :: Count(ever[..k], ever[k].wallet, ever[k].at - RATE_LIMIT_WINDOW_MS) < max
  }

  ghost predicate Inv(l: Ledger, now: nat, max: nat) {
    Faithful(l, now) && Throttled(l.ever, max)
  }

  lemma RecordIsFaithful(l: Ledger, tick: Tick, now: nat)
    requires Faithful(l, now)
    ensures Faithful(Ledger(l.table + [tick], l.ever + [tick]), now)
  {
    hide Count;
    forall w, since | since >= now - RATE_LIMIT_WINDOW_MS
      ensures Count(l.table + [tick], w, since) == Count(l.ever + [tick], w, since) {
      CountConcat(l.table, [tick], w, since);
      CountConcat(l.ever, [tick], w, since);
    }
  }

  lemma RecordStaysThrottled(ever: seq<Tick>, tick: Tick, max: nat)
    requires Throttled(ever, max)
    requires Count(ever, tick.wallet, tick.at - RATE_LIMIT_WINDOW_MS) < max
    ensures Throttled(ever + [tick], max)
  {
    hide Count;
    var r := ever + [tick];
    forall k | 0 <= k < |r|
      ensures Count(r[..k], r[k].wallet, r[k].at - RATE_LIMIT_WINDOW_MS) < max {
      assert r[..k] == ever[..k];
      if k == |ever| { assert ever[..k] == ever; }
    }
  }

  lemma RecordKeepsInv(l: Ledger, wallet: string, now: nat, max: nat)
    requires Inv(l, now, max) && Recent(l, wallet, now) < max
    ensures Inv(Record(l, wallet, now), now, max)
  {
    hide Throttled;
    RecordIsFaithful(l, Tick(wallet, now), now);
    RecordStaysThrottled(l.ever, Tick(wallet, now), max);
  }

  lemma SweepKeepsInv(l: Ledger, window: nat, now: nat, max: nat)
    requires Inv(l, now, max) && window >= RATE_LIMIT_WINDOW_MS
    ensures Inv(Sweep(l, window, now), now, max)
  {
    forall w, since | since >= now - RATE_LIMIT_WINDOW_MS
      ensures Count(Sweep(l, window, now).table, w, since) == Count(l.ever, w, since) {
      KeepLeavesCount(l.table, now - window, w, since);
    }
  }

  lemma {:induction false} CountInWithin(ticks: seq<Tick>, wallet: string, lo: int, hi: int, since: int)
    requires since < lo
    ensures CountIn(ticks, wallet, lo, hi) <= Count(ticks, wallet, since)
  {
    if ticks != [] { CountInWithin(ticks[..|ticks| - 1], wallet, lo, hi, since); }
  }

  /** Every half-open window holds at most max ticks of a wallet text. */
  lemma {:induction false} WindowBound(ever: seq<Tick>, max: nat, wallet: string, lo: int)
    requires Throttled(ever, max)
    ensures CountIn(ever, wallet, lo, lo + RATE_LIMIT_WINDOW_MS) <= max
  {
    hide Count;
    if ever != [] {
      var n := |ever| - 1;
      assert Throttled(ever[..n], max) by {
        forall k | 0 <= k < n
          ensures Count(ever[..n][..k], ever[..n][k].wallet, ever[..n][k].at - RATE_LIMIT_WINDOW_MS) < max {
          assert ever[..n][..k] == ever[..k];
        }
      }
      WindowBound(ever[..n], max, wallet, lo);
      var last := ever[n];
      if last.wallet == wallet && lo <= last.at < lo + RATE_LIMIT_WINDOW_MS {
        CountInWithin(ever[..n], wallet, lo, lo + RATE_LIMIT_WINDOW_MS, last.at - RATE_LIMIT_WINDOW_MS);
        assert Count(ever[..n], last.wallet, last.at - RATE_LIMIT_WINDOW_MS) < max;
      }
    }
  }

  // ---- one account, several spellings ----

  /** Ticks of any of the wallet texts with lo <= at < hi. */
  function CountAny(ticks: seq<Tick>, wallets: set<string>, lo: int, hi: int): nat {
    if ticks == [] then 0
    else
      var last := ticks[|ticks| - 1];
      CountAny(ticks[..|ticks| - 1], wallets, lo, hi) + (if last.wallet in wallets && lo <= last.at < hi then 1 else 0)
  }

  /** The texts under which ticks were recorded for the account an address text denotes. */
  function Spellings(ticks: seq<Tick>, address: string): set<string> {
    set t | t in ticks && Text.Lower(t.wallet) == Text.Lower(address) :: t.wallet
  }

  lemma {:induction false} OneWalletMore(ticks: seq<Tick>, wallets: set<string>, w: string, lo: int, hi: int)
    requires w !in wallets
    ensures CountAny(ticks, wallets + {w}, lo, hi) == CountAny(ticks, wallets, lo, hi) + CountIn(ticks, w, lo, hi)
  {
    if ticks != [] { OneWalletMore(ticks[..|ticks| - 1], wallets, w, lo, hi); }
  }

  lemma {:induction false} NoWallet(ticks: seq<Tick>, lo: int, hi: int)
    ensures CountAny(ticks, {}, lo, hi) == 0
  {
    if ticks != [] { NoWallet(ticks[..|ticks| - 1], lo, hi); }
  }

  lemma OneShareMore(max: nat, n: nat)
    ensures max * (n + 1) == max * n + max
  {
  }

  lemma {:induction false} WalletsBound(ever: seq<Tick>, max: nat, wallets: set<string>, lo: int)
    requires Throttled(ever, max)
    ensures CountAny(ever, wallets, lo, lo + RATE_LIMIT_WINDOW_MS) <= max * |wallets|
    decreases |wallets|
  {
    if wallets == {} {
      NoWallet(ever, lo, lo + RATE_LIMIT_WINDOW_MS);
    } else {
      hide Throttled, CountAny, CountIn;
      var w :| w in wallets;
      WalletsBound(ever, max, wallets - {w}, lo);
      WindowBound(ever, max, w, lo);
      OneWalletMore(ever, wallets - {w}, w, lo, lo + RATE_LIMIT_WINDOW_MS);
      assert wallets - {w} + {w} == wallets;
      OneShareMore(max, |wallets - {w}|);
    }
  }

  /** The limit holds for each spelling of an address apart: an account gets at most as many times
      the maximum as spellings are used. */
  lemma AccountBound(ever: seq<Tick>, max: nat, address: string, lo: int)
    requires Throttled(ever, max)
    ensures CountAny(ever, Spellings(ever, address), lo, lo + RATE_LIMIT_WINDOW_MS) <= max * |Spellings(ever, address)|
  {
    WalletsBound(ever, max, Spellings(ever, address), lo);
  }

  /** The documented limit, for an account that is spelled in these ways. */
  ghost predicate AccountLimited(wallets: set<string>, max: nat) {
    forall ever, lo :: Throttled(ever, max) ==> InHour(ever, wallets, lo) <= max
  }

  function InHour(ticks: seq<Tick>, wallets: set<string>, lo: int): nat {
    CountAny(ticks, wallets, lo, lo + RATE_LIMIT_WINDOW_MS)
  }

  /** Against docs/configuration.md:96: a limiter that counts each text apart keeps an account to
      the maximum exactly when the account has one spelling, or nothing is let through at all. */
  lemma AccountLimitedIff(wallets: set<string>, max: nat)
    ensures AccountLimited(wallets, max) <==> |wallets| <= 1 || max == 0
  {
    hide Throttled, CountAny;
    if |wallets| <= 1 || max == 0 {
      forall ever, lo | Throttled(ever, max) ensures InHour(ever, wallets, lo) <= max {
        WalletsBound(ever, max, wallets, lo);
        SmallShare(max, |wallets|);
      }
    } else {
      var a :| a in wallets;
      var rest := wallets - {a};
      assert |rest| > 0;
      var b :| b in rest;
      var l := Record(Fill(a, max), b, 0);
      FillKeepsInv(a, max, max);
      FillRecent(a, b, max);
      RecordKeepsInv(Fill(a, max), b, 0, max);
      FillCounts(a, wallets, max);
      OneTickMore(Fill(a, max).ever, Tick(b, 0), wallets, 0, RATE_LIMIT_WINDOW_MS);
      assert Throttled(l.ever, max) && InHour(l.ever, wallets, 0) == max + 1;
    }
  }

  lemma SmallShare(max: nat, n: nat)
    requires n <= 1 || max == 0
    ensures max * n <= max
  {
  }

  /** n ticks under one spelling, all at once. */
  function Fill(a: string, n: nat): Ledger {
    if n == 0 then Ledger([], []) else Record(Fill(a, n - 1), a, 0)
  }

  lemma {:induction false} FillRecent(a: string, w: string, n: nat)
    ensures Recent(Fill(a, n), w, 0) == if w == a then n else 0
  {
    if n > 0 {
      hide Count;
      FillRecent(a, w, n - 1);
      RecordCounts(Fill(a, n - 1), a, w, 0);
    }
  }

  lemma {:induction false} FillKeepsInv(a: string, n: nat, max: nat)
    requires n <= max
    ensures Inv(Fill(a, n), 0, max)
  {
    hide Inv, Recent;
    if n == 0 {
      EmptyKeepsInv(max);
    } else {
      FillKeepsInv(a, n - 1, max);
      FillRecent(a, a, n - 1);
      RecordKeepsInv(Fill(a, n - 1), a, 0, max);
    }
  }

  lemma EmptyKeepsInv(max: nat)
    ensures Inv(Ledger([], []), 0, max)
  {
  }

  lemma RecordCounts(l: Ledger, a: string, w: string, now: nat)
    ensures Recent(Record(l, a, now), w, now) == Recent(l, w, now) + if w == a then 1 else 0
  {
    assert (l.table + [Tick(a, now)])[..|l.table|] == l.table;
  }

  lemma OneTickMore(ticks: seq<Tick>, t: Tick, wallets: set<string>, lo: int, hi: int)
    ensures CountAny(ticks + [t], wallets, lo, hi) ==
      CountAny(ticks, wallets, lo, hi) + if t.wallet in wallets && lo <= t.at < hi then 1 else 0
  {
    assert (ticks + [t])[..|ticks|] == ticks;
  }

  lemma {:induction false} FillCounts(a: string, wallets: set<string>, n: nat)
    requires a in wallets
    ensures CountAny(Fill(a, n).ever, wallets, 0, RATE_LIMIT_WINDOW_MS) == n
  {
    if n > 0 {
      FillCounts(a, wallets, n - 1);
      OneTickMore(Fill(a, n - 1).ever, Tick(a, 0), wallets, 0, RATE_LIMIT_WINDOW_MS);
    }
  }
}
