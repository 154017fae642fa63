/** The bot's polling loop: a growing interval under a deadline. */
module Polling {
  import opened Types

  const MAX_INTERVAL := 5000.0
  const MAX_TIMER := 2147483647.0

  datatype Item = Item(requestId: string, intentId: string)

  /** What the n-th poll meets: the listing it returns, None when it fails; how long the call
      takes; and how much later than asked the timer after it fires, all times in ms. */
  datatype Environment = Environment(listing: nat -> Option<seq<Item>>, took: nat -> nat, late: nat -> nat)

  /** The delay a timer keeps for a requested one: whole milliseconds, at least 1. */
  function Delay(d: real): (ms: nat)
    ensures ms >= 1
  {
    if 1.0 <= d <= MAX_TIMER then d.Floor else 1
  }

  function Next(interval: real): real {
    if interval * 1.5 <= MAX_INTERVAL then interval * 1.5 else MAX_INTERVAL
  }

  /** The interval after n polls. */
  function Interval(first: real, n: nat): real {
    if n == 0 then first else Next(Interval(first, n - 1))
  }

  /** The time n sleeps ask for. */
  function Waited(first: real, n: nat): nat {
    if n == 0 then 0 else Waited(first, n - 1) + Delay(Interval(first, n - 1))
  }

  /** The time the environment adds to the first n rounds. */
  function Lost(env: Environment, n: nat): nat {
    if n == 0 then 0 else Lost(env, n - 1) + env.took(n - 1) + env.late(n - 1)
  }

  function FirstMatch(items: seq<Item>, intentId: string): (r: Option<Item>)
    ensures r.None? <==> forall k :: 0 <= k < |items| ==> items[k].intentId != intentId
    ensures r.Some? ==>
      exists k :: 0 <= k < |items| && items[k] == r.value && items[k].intentId == intentId &&
                  forall j :: 0 <= j < k ==> items[j].intentId != intentId
  {
    if items == [] then None
    else if items[0].intentId == intentId then Some(items[0])
    else
      var r := FirstMatch(items[1..], intentId);
      assert forall k :: 0 < k < |items| ==> items[k] == items[1..][k - 1];
      r
  }

  /** What the n-th poll comes back with. */
  function Answer(env: Environment, n: nat, intentId: string): Option<Item> {
    if env.listing(n).None? then None else FirstMatch(env.listing(n).value, intentId)
  }

  /** polls are the times at which the listing was asked for.  The n-th is the sum of the sleeps
      before it plus the time lost to calls and late timers; polling goes on exactly until a
      listing holds the intent or the deadline has passed. */
  method PollForPendingApproval(env: Environment, intentId: string, pollIntervalMs: real, timeoutMs: nat, start: nat)
    returns (found: Option<Item>, polls: seq<nat>)
    ensures PollTimes(env, pollIntervalMs, timeoutMs, start, polls)
    ensures forall n :: 0 <= n < |polls| - 1 ==> Answer(env, n, intentId) == None
    ensures found.Some? ==> |polls| > 0 && Answer(env, |polls| - 1, intentId) == found
    ensures found.None? ==> |polls| > 0 ==> Answer(env, |polls| - 1, intentId) == None
    ensures found.None? ==> Waited(pollIntervalMs, |polls|) + Lost(env, |polls|) >= timeoutMs
  {
    polls := [];
    var now, deadline, currentInterval := start, start + timeoutMs, pollIntervalMs;
    while now < deadline
      invariant now == start + Waited(pollIntervalMs, |polls|) + Lost(env, |polls|)
      invariant currentInterval == Interval(pollIntervalMs, |polls|)
      invariant PollTimes(env, pollIntervalMs, timeoutMs, start, polls)
      invariant forall n :: 0 <= n < |polls| ==> Answer(env, n, intentId) == None
      decreases deadline - now
    {
      hide Interval, Next, FirstMatch, Delay;
      var n := |polls|;
      polls := polls + [now];
      if env.listing(n).Some? {
        found := FirstMatch(env.listing(n).value, intentId);
        if found.Some? { return; }
      }
      now := now + env.took(n) + Delay(currentInterval) + env.late(n);
      currentInterval := Next(currentInterval);
    }
    return None, polls;
  }

  lemma {:induction false} EverySleepTakesTime(first: real, n: nat)
    ensures Waited(first, n) >= n
  {
    if n > 0 { EverySleepTakesTime(first, n - 1); }
  }

  predicate PollTimes(env: Environment, first: real, timeoutMs: nat, start: nat, polls: seq<nat>) {
    forall n :: 0 <= n < |polls| ==> polls[n] == start + Waited(first, n) + Lost(env, n) < start + timeoutMs
  }

  lemma PollIsInTime(env: Environment, first: real, timeoutMs: nat, start: nat, polls: seq<nat>, n: nat)
    requires PollTimes(env, first, timeoutMs, start, polls) && n < |polls|
    ensures Waited(first, n) < timeoutMs
  {
    assert polls[n] < start + timeoutMs;
  }

  /** However the core behaves, once n sleeps ask for the whole timeout there is no further poll. */
  lemma PollsAreBounded(env: Environment, first: real, timeoutMs: nat, start: nat, polls: seq<nat>, n: nat)
    requires PollTimes(env, first, timeoutMs, start, polls) && Waited(first, n) >= timeoutMs
    ensures |polls| <= n
  {
    if n < |polls| { PollIsInTime(env, first, timeoutMs, start, polls, n); }
  }

  /** Whatever the interval, there are at most as many polls as the timeout has milliseconds. */
  lemma PollingEnds(env: Environment, first: real, timeoutMs: nat, start: nat, polls: seq<nat>)
    requires PollTimes(env, first, timeoutMs, start, polls)
    ensures |polls| <= timeoutMs
  {
    EverySleepTakesTime(first, timeoutMs);
    PollsAreBounded(env, first, timeoutMs, start, polls, timeoutMs);
  }

  /** With the shipped 500 ms and 10 s, at most six polls; six when nothing is found and no time is lost. */
  lemma SixPolls(env: Environment, start: nat, polls: seq<nat>)
    requires PollTimes(env, 500.0, 10_000, start, polls)
    ensures |polls| <= 6
    ensures Waited(500.0, |polls|) + Lost(env, |polls|) >= 10_000 && Lost(env, |polls|) == 0 ==> |polls| == 6
  {
    assert Waited(500.0, 1) == 500 && Interval(500.0, 1) == 750.0;
    assert Waited(500.0, 2) == 1250 && Interval(500.0, 2) == 1125.0;
    assert Waited(500.0, 3) == 2375 && Interval(500.0, 3) == 1687.5;
    assert Waited(500.0, 4) == 4062 && Interval(500.0, 4) == 2531.25;
    assert Waited(500.0, 5) == 6593 && Interval(500.0, 5) == 3796.875;
    assert Waited(500.0, 6) == 10389;
    PollsAreBounded(env, 500.0, 10_000, start, polls, 6);
  }

  /** The interval grows by half until it stays at five seconds. */
  lemma {:induction false} IntervalsGrowToFiveSeconds(first: real, n: nat)
    requires 0.0 < first <= 5000.0
    ensures 0.0 < Interval(first, n) <= 5000.0
    ensures Interval(first, n + 1) ==
      if Interval(first, n) > 5000.0 / 1.5 then 5000.0 else Interval(first, n) * 1.5
  {
    if n > 0 { IntervalsGrowToFiveSeconds(first, n - 1); }
  }

  /** A timer keeps whole milliseconds from 1 to 2^31 - 1; anything else becomes 1. */
  lemma TimerRange()
    ensures Delay(2147483647.0) == 2147483647 && Delay(2147483648.0) == 1
    ensures Delay(0.9) == 1 && Delay(1.0) == 1 && Delay(2.9) == 2
  {
  }
}
