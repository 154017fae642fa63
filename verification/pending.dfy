/** Pending web approvals: promises that a decision, a timeout or a shutdown settles. */
module Pending {
  import opened Types

  datatype Summary = Summary(intentId: string, txRequestHash: string)

  datatype Entry = Entry(summary: Summary, createdAt: nat, decided: bool)

  type Store = map<string, Entry>

  predicate Late(e: Entry, now: int, ttlMs: nat) {
    now - e.createdAt > ttlMs
  }

  function Add(p: Store, id: string, summary: Summary, now: nat): Store {
    p[id := Entry(summary, now, false)]
  }

  predicate DecideSucceeds(p: Store, id: string, now: nat, ttlMs: nat) {
    id in p && !p[id].decided && !Late(p[id], now, ttlMs)
  }

  /** A late decision also removes the entry, without settling its promise. */
  function Decide(p: Store, id: string): Store {
    if id in p && !p[id].decided then p - {id} else p
  }

  predicate TimesOut(p: Store, id: string, now: nat, ttlMs: nat) {
    id in p && Late(p[id], now, ttlMs) && !p[id].decided
  }

  function Cleanup(p: Store, now: nat, ttlMs: nat): Store {
    map id | id in p && !TimesOut(p, id, now, ttlMs) :: p[id]
  }

  /** One call of a promise's resolve function. */
  datatype Delivery = Delivery(id: string, approved: bool)

  function Refusals(ids: set<string>): multiset<Delivery> {
    multiset(set id | id in ids :: Delivery(id, false))
  }

  lemma RefusalsCount(ids: set<string>, d: Delivery)
    ensures Refusals(ids)[d] == if d.id in ids && !d.approved then 1 else 0
  {
    if d.id in ids && !d.approved {
      assert d == Delivery(d.id, false);
    }
  }

  lemma RefuseOneMore(ids: set<string>, id: string)
    requires id !in ids
    ensures Refusals(ids + {id}) == Refusals(ids) + multiset{Delivery(id, false)}
  {
    assert (set i | i in ids + {id} :: Delivery(i, false)) ==
           (set i | i in ids :: Delivery(i, false)) + {Delivery(id, false)};
  }

  lemma RemoveOneMore(before: Store, settled: set<string>, id: string, e: Entry)
    ensures (before - settled)[id := e] - {id} == before - (settled + {id})
  {
  }

  lemma CleanupRemoves(before: Store, settled: set<string>, now: nat, ttlMs: nat)
    requires settled <= before.Keys
    requires forall id :: id in before ==> (id in settled <==> TimesOut(before, id, now, ttlMs))
    ensures before - settled == Cleanup(before, now, ttlMs)
    ensures before.Keys - (before - settled).Keys == settled
  {
    hide TimesOut;
  }

  class PendingApprovalStore {
    var pending: Store
    var deliveries: seq<Delivery>
    const ttlMs: nat

    constructor (ttlMs: nat := 300_000)
      ensures pending == map[] && deliveries == [] && this.ttlMs == ttlMs
    {
      this.ttlMs := ttlMs;
      pending, deliveries := map[], [];
    }

    /** id stands for randomUUID. */
    method AddRequest(id: string, summary: Summary, now: nat)
      requires id !in pending
      modifies this`pending
      ensures pending == Add(old(pending), id, summary, now)
      ensures pending == old(pending)[id := Entry(summary, now, false)]
    {
      pending := pending[id := Entry(summary, now, false)];
    }

    method List(now: nat) returns (open: Store)
      ensures forall id :: id in open <==> id in pending && now - pending[id].createdAt <= ttlMs
      ensures forall id :: id in open ==> open[id] == pending[id]
    {
      open := map[];
      var todo := pending.Keys;
      while todo != {}
        invariant todo <= pending.Keys
        invariant open == map id | id in pending && id !in todo && !Late(pending[id], now, ttlMs) :: pending[id]
        decreases |todo|
      {
        var id :| id in todo;
        if now - pending[id].createdAt <= ttlMs { open := open[id := pending[id]]; }
        todo := todo - {id};
      }
    }

    method Get(id: string, now: nat) returns (e: Option<Entry>)
      ensures e.Some? <==> id in pending && now - pending[id].createdAt <= ttlMs
      ensures e.Some? ==> e.value == pending[id]
    {
      if id !in pending { return None; }
      if now - pending[id].createdAt > ttlMs { return None; }
      return Some(pending[id]);
    }

    method DecideRequest(id: string, approved: bool, now: nat) returns (ok: bool)
      modifies this
      ensures ok == DecideSucceeds(old(pending), id, now, ttlMs)
      ensures pending == Decide(old(pending), id)
      ensures ok <==> id in old(pending) && !old(pending)[id].decided && now - old(pending)[id].createdAt <= ttlMs
      ensures pending == if id in old(pending) && !old(pending)[id].decided then old(pending) - {id} else old(pending)
      ensures deliveries == old(deliveries) + if ok then [Delivery(id, approved)] else []
    {
      if id !in pending { return false; }
      if pending[id].decided { return false; }
      if now - pending[id].createdAt > ttlMs {
        pending := pending - {id};
        return false;
      }
      pending := pending[id := pending[id].(decided := true)];
      deliveries := deliveries + [Delivery(id, approved)];
      pending := pending - {id};
      return true;
    }

    method CleanupRequests(now: nat)
      modifies this
      ensures pending == Cleanup(old(pending), now, ttlMs)
      ensures multiset(deliveries) == multiset(old(deliveries)) + Refusals(old(pending).Keys - pending.Keys)
      ensures forall id :: id in old(pending) ==>
                (id in pending <==> old(pending)[id].decided || now - old(pending)[id].createdAt <= ttlMs)
      ensures forall id :: id in pending ==> id in old(pending) && pending[id] == old(pending)[id]
      ensures forall id :: multiset(deliveries)[Delivery(id, false)] ==
                multiset(old(deliveries))[Delivery(id, false)] + if id in old(pending) && id !in pending then 1 else 0
      ensures forall id :: multiset(deliveries)[Delivery(id, true)] == multiset(old(deliveries))[Delivery(id, true)]
    {
      ghost var before, settled: set<string> := pending, {};
      var todo := pending.Keys;
      while todo != {}
        invariant todo <= before.Keys && settled !! todo && settled <= before.Keys
        invariant pending == before - settled
        invariant forall id :: id in before && id !in todo ==> (id in settled <==> TimesOut(before, id, now, ttlMs))
        invariant multiset(deliveries) == multiset(old(deliveries)) + Refusals(settled)
        decreases |todo|
      {
        hide Refusals;
        var id :| id in todo;
        todo := todo - {id};
        if now - pending[id].createdAt > ttlMs {
          if pending[id].decided { continue; }
          pending := pending[id := pending[id].(decided := true)];
          deliveries := deliveries + [Delivery(id, false)];
          RefuseOneMore(settled, id);
          RemoveOneMore(before, settled, id, pending[id]);
          settled := settled + {id};
          pending := pending - {id};
        }
      }
      CleanupRemoves(before, settled, now, ttlMs);
      forall id ensures Refusals(settled)[Delivery(id, false)] == (if id in settled then 1 else 0)
        ensures Refusals(settled)[Delivery(id, true)] == 0 {
        RefusalsCount(settled, Delivery(id, false));
        RefusalsCount(settled, Delivery(id, true));
      }
    }

    method Close()
      modifies this
      ensures pending == map[]
      ensures multiset(deliveries) == multiset(old(deliveries)) + Refusals(old(pending).Keys)
      ensures forall id, answer :: multiset(deliveries)[Delivery(id, answer)] ==
                multiset(old(deliveries))[Delivery(id, answer)] + if id in old(pending) && !answer then 1 else 0
    {
      var todo := pending.Keys;
      while todo != {}
        invariant todo <= pending.Keys && pending == old(pending)
        invariant multiset(deliveries) == multiset(old(deliveries)) + Refusals(pending.Keys - todo)
        decreases |todo|
      {
        var id :| id in todo;
        RefuseOneMore(pending.Keys - todo, id);
        assert pending.Keys - (todo - {id}) == (pending.Keys - todo) + {id};
        todo := todo - {id};
        deliveries := deliveries + [Delivery(id, false)];
      }
      assert pending.Keys - {} == pending.Keys;
      forall id, answer
        ensures Refusals(pending.Keys)[Delivery(id, answer)] == if id in pending && !answer then 1 else 0 {
        RefusalsCount(pending.Keys, Delivery(id, answer));
      }
      pending := map[];
    }
  }

  // ---- accounting over runs ----

  datatype Operation =
    | OpAdd(id: string, summary: Summary)
    | OpDecide(id: string, approved: bool)
    | OpCleanup
    | OpClose

  datatype Timed = At(now: nat, op: Operation)

  /** What became of an added request. */
  datatype Outcome = Approved | Refused | TimedOut | ClosedDown | DroppedLate

  datatype Fate = Fate(outcome: Outcome, at: nat)

  datatype Books = Books(pending: Store, deliveries: multiset<Delivery>, added: map<string, nat>,
                         fates: map<string, Fate>)

  const EMPTY := Books(map[], multiset{}, map[], map[])

  function ApplyDecide(b: Books, id: string, approved: bool, now: nat, ttlMs: nat): Books {
    var kept := b.(pending := Decide(b.pending, id));
    if DecideSucceeds(b.pending, id, now, ttlMs) then
      kept.(deliveries := b.deliveries + multiset{Delivery(id, approved)},
            fates := b.fates[id := Fate(if approved then Approved else Refused, now)])
    else if id in b.pending && !b.pending[id].decided then
      kept.(fates := b.fates[id := Fate(DroppedLate, now)])
    else kept
  }

  function Apply(b: Books, e: Timed, ttlMs: nat): Books {
    match e.op
    case OpAdd(id, s) => b.(pending := Add(b.pending, id, s, e.now), added := b.added[id := e.now])
    case OpDecide(id, approved) => ApplyDecide(b, id, approved, e.now, ttlMs)
    case OpCleanup =>
      var kept := Cleanup(b.pending, e.now, ttlMs);
      b.(pending := kept, deliveries := b.deliveries + Refusals(b.pending.Keys - kept.Keys),
         fates := b.fates + map id | id in b.pending.Keys - kept.Keys :: Fate(TimedOut, e.now))
    case OpClose =>
      b.(pending := map[], deliveries := b.deliveries + Refusals(b.pending.Keys),
         fates := b.fates + map id | id in b.pending.Keys :: Fate(ClosedDown, e.now))
  }

  function After(b: Books, run: seq<Timed>, ttlMs: nat): Books
    decreases run
  {
    if run == [] then b else After(Apply(b, run[0], ttlMs), run[1..], ttlMs)
  }

  predicate FreshIds(b: Books, run: seq<Timed>, ttlMs: nat)
    decreases run
  {
    run == [] ||
    ((run[0].op.OpAdd? ==> run[0].op.id !in b.added) && FreshIds(Apply(b, run[0], ttlMs), run[1..], ttlMs))
  }

  /** How often a promise is settled with a given answer. */
  function DueDeliveries(b: Books, d: Delivery): nat {
    if d.id !in b.fates then 0
    else if b.fates[d.id].outcome == Approved then (if d.approved then 1 else 0)
    else if b.fates[d.id].outcome == DroppedLate || d.approved then 0
    else 1
  }

  /** Every added request is held or has a fate, never both. */
  ghost predicate Partitioned(b: Books) {
    && b.added.Keys == b.pending.Keys + b.fates.Keys
    && b.pending.Keys !! b.fates.Keys
    && (forall id :: id in b.pending ==> b.pending[id].createdAt == b.added[id] && !b.pending[id].decided)
  }

  ghost predicate Delivered(b: Books) {
    forall d :: b.deliveries[d] == DueDeliveries(b, d)
  }

  ghost predicate ApprovedInTime(b: Books, ttlMs: nat) {
    forall id :: id in b.fates && b.fates[id].outcome == Approved ==>
      id in b.added && b.fates[id].at - b.added[id] <= ttlMs
  }

  ghost predicate Balanced(b: Books, ttlMs: nat) {
    Partitioned(b) && Delivered(b) && ApprovedInTime(b, ttlMs)
  }

  /** Removing the entries of gone, settling each promise with false. */
  function Settle(b: Books, gone: set<string>, fate: Fate): Books {
    b.(pending := b.pending - gone, deliveries := b.deliveries + Refusals(gone),
       fates := b.fates + map id | id in gone :: fate)
  }

  lemma SettleKeepsBalance(b: Books, gone: set<string>, fate: Fate, ttlMs: nat)
    requires Balanced(b, ttlMs) && gone <= b.pending.Keys
    requires fate.outcome == TimedOut || fate.outcome == ClosedDown
    ensures Balanced(Settle(b, gone, fate), ttlMs)
  {
    hide Refusals;
    var s := Settle(b, gone, fate);
    forall d ensures s.deliveries[d] == DueDeliveries(s, d) {
      RefusalsCount(gone, d);
      assert b.deliveries[d] == DueDeliveries(b, d);
    }
    assert Partitioned(s);
  }

  lemma DecideKeepsDelivered(b: Books, id: string, approved: bool, now: nat, ttlMs: nat)
    requires Balanced(b, ttlMs)
    ensures Delivered(ApplyDecide(b, id, approved, now, ttlMs))
  {
    hide Refusals;
    var s := ApplyDecide(b, id, approved, now, ttlMs);
    forall d ensures s.deliveries[d] == DueDeliveries(s, d) {
      assert b.deliveries[d] == DueDeliveries(b, d);
    }
  }

  lemma DecideKeepsBalance(b: Books, id: string, approved: bool, now: nat, ttlMs: nat)
    requires Balanced(b, ttlMs)
    ensures Balanced(ApplyDecide(b, id, approved, now, ttlMs), ttlMs)
  {
    hide Delivered;
    DecideKeepsDelivered(b, id, approved, now, ttlMs);
    assert Partitioned(ApplyDecide(b, id, approved, now, ttlMs));
  }

  lemma ApplyKeepsBalance(b: Books, e: Timed, ttlMs: nat)
    requires Balanced(b, ttlMs) && (e.op.OpAdd? ==> e.op.id !in b.added)
    ensures Balanced(Apply(b, e, ttlMs), ttlMs)
  {
    hide Refusals;
    match e.op
    case OpAdd(_, _) =>
      var s := Apply(b, e, ttlMs);
      forall d ensures s.deliveries[d] == DueDeliveries(s, d) {
        assert b.deliveries[d] == DueDeliveries(b, d);
      }
    case OpDecide(id, approved) =>
      hide Balanced, ApplyDecide;
      DecideKeepsBalance(b, id, approved, e.now, ttlMs);
    case OpCleanup =>
      hide Delivered, ApprovedInTime;
      var kept := Cleanup(b.pending, e.now, ttlMs);
      SettleKeepsBalance(b, b.pending.Keys - kept.Keys, Fate(TimedOut, e.now), ttlMs);
      assert kept == b.pending - (b.pending.Keys - kept.Keys);
    case OpClose =>
      hide Delivered, ApprovedInTime;
      SettleKeepsBalance(b, b.pending.Keys, Fate(ClosedDown, e.now), ttlMs);
      assert b.pending - b.pending.Keys == map[];
  }

  lemma {:induction false} RunKeepsBalance(b: Books, run: seq<Timed>, ttlMs: nat)
    requires Balanced(b, ttlMs) && FreshIds(b, run, ttlMs)
    ensures Balanced(After(b, run, ttlMs), ttlMs)
    decreases run
  {
    if run != [] {
      ApplyKeepsBalance(b, run[0], ttlMs);
      RunKeepsBalance(Apply(b, run[0], ttlMs), run[1..], ttlMs);
    }
  }

  /** How many decisions on id the run's callers are told succeeded. */
  function Successes(b: Books, run: seq<Timed>, id: string, ttlMs: nat): nat
    decreases run
  {
    if run == [] then 0
    else
      var e := run[0];
      (if e.op.OpDecide? && e.op.id == id && DecideSucceeds(b.pending, id, e.now, ttlMs) then 1 else 0) +
      Successes(Apply(b, e, ttlMs), run[1..], id, ttlMs)
  }

  /** A decision succeeds at most once per request, and never on a settled one. */
  lemma {:induction false} DecideSucceedsAtMostOnce(b: Books, run: seq<Timed>, id: string, ttlMs: nat)
    requires Balanced(b, ttlMs) && FreshIds(b, run, ttlMs)
    ensures Successes(b, run, id, ttlMs) <= if id in b.fates then 0 else 1
    decreases run
  {
    if run != [] {
      var e, s := run[0], Apply(b, run[0], ttlMs);
      ApplyKeepsBalance(b, e, ttlMs);
      DecideSucceedsAtMostOnce(s, run[1..], id, ttlMs);
      FatesStay(b, e, id, ttlMs);
    }
  }

  lemma FatesStay(b: Books, e: Timed, id: string, ttlMs: nat)
    requires Balanced(b, ttlMs)
    ensures id in b.fates ==>
      id in Apply(b, e, ttlMs).fates && Apply(b, e, ttlMs).fates[id] == b.fates[id] && id !in b.pending
    ensures e.op.OpDecide? && e.op.id == id && DecideSucceeds(b.pending, id, e.now, ttlMs) ==>
      id in Apply(b, e, ttlMs).fates && id !in b.fates
  {
    hide Delivered, Refusals;
  }

  function Sharing(fates: map<string, Fate>, outcome: Outcome): set<string> {
    set id | id in fates && fates[id].outcome == outcome
  }

  /** Over any sequence of operations every added request is held or has one fate; its promise is
      settled exactly once if the fate is not that of a late decision, and otherwise not at all;
      true is delivered exactly for a decision made in time. */
  lemma EveryRequestIsAccountedFor(run: seq<Timed>, ttlMs: nat)
    requires FreshIds(EMPTY, run, ttlMs)
    ensures var b := After(EMPTY, run, ttlMs);
      && |b.added| == |b.pending|
           + |Sharing(b.fates, Approved)| + |Sharing(b.fates, Refused)|
           + |Sharing(b.fates, TimedOut)| + |Sharing(b.fates, ClosedDown)|
           + |Sharing(b.fates, DroppedLate)|
      && (forall id :: b.deliveries[Delivery(id, true)] + b.deliveries[Delivery(id, false)] ==
            if id in b.fates && b.fates[id].outcome != DroppedLate then 1 else 0)
      && (forall id :: Delivery(id, true) in b.deliveries <==> id in b.fates && b.fates[id].outcome == Approved)
      && (forall id :: id in b.fates && b.fates[id].outcome == Approved ==>
            id in b.added && b.fates[id].at - b.added[id] <= ttlMs)
  {
    assert Balanced(EMPTY, ttlMs);
    RunKeepsBalance(EMPTY, run, ttlMs);
    var b := After(EMPTY, run, ttlMs);
    FatesPartition(b.fates);
    assert |b.added| == |b.added.Keys| && |b.pending| == |b.pending.Keys| && |b.fates| == |b.fates.Keys|;
    forall id ensures b.deliveries[Delivery(id, true)] == DueDeliveries(b, Delivery(id, true))
      ensures b.deliveries[Delivery(id, false)] == DueDeliveries(b, Delivery(id, false)) {
    }
  }

  /** A request that is still held when a cleanup comes after its lifetime is refused then, once. */
  lemma OverdueIsRefused(run: seq<Timed>, id: string, now: nat, ttlMs: nat)
    requires FreshIds(EMPTY, run, ttlMs) && id in After(EMPTY, run, ttlMs).pending
    requires now - After(EMPTY, run, ttlMs).pending[id].createdAt > ttlMs
    ensures var t := Apply(After(EMPTY, run, ttlMs), At(now, OpCleanup), ttlMs);
      id !in t.pending && id in t.fates && t.fates[id] == Fate(TimedOut, now) &&
      t.deliveries[Delivery(id, false)] == 1 && t.deliveries[Delivery(id, true)] == 0
  {
    hide Refusals;
    assert Balanced(EMPTY, ttlMs);
    RunKeepsBalance(EMPTY, run, ttlMs);
    var b := After(EMPTY, run, ttlMs);
    ApplyKeepsBalance(b, At(now, OpCleanup), ttlMs);
    var t := Apply(b, At(now, OpCleanup), ttlMs);
    assert t.deliveries[Delivery(id, false)] == DueDeliveries(t, Delivery(id, false));
    assert t.deliveries[Delivery(id, true)] == DueDeliveries(t, Delivery(id, true));
  }

  /** Against docs/operations/performance-tuning.md:171, where a transaction waits until the user
      approves or the lifetime is over: a decision on a request that is over but not yet cleaned up
      leaves its promise unsettled, whatever follows. */
  lemma LateDecisionIsNeverDelivered(b: Books, id: string, approved: bool, now: nat, run: seq<Timed>, ttlMs: nat)
    requires Balanced(b, ttlMs) && id in b.pending && Late(b.pending[id], now, ttlMs)
    requires FreshIds(ApplyDecide(b, id, approved, now, ttlMs), run, ttlMs)
    ensures var t := After(ApplyDecide(b, id, approved, now, ttlMs), run, ttlMs);
      id in t.fates && t.fates[id] == Fate(DroppedLate, now) &&
      forall answer :: Delivery(id, answer) !in t.deliveries
  {
    var s := ApplyDecide(b, id, approved, now, ttlMs);
    DecideKeepsBalance(b, id, approved, now, ttlMs);
    RunKeepsBalance(s, run, ttlMs);
    FateIsFinal(s, run, id, ttlMs);
    var t := After(s, run, ttlMs);
    forall answer ensures Delivery(id, answer) !in t.deliveries {
      assert t.deliveries[Delivery(id, answer)] == DueDeliveries(t, Delivery(id, answer));
    }
  }

  lemma {:induction false} FateIsFinal(b: Books, run: seq<Timed>, id: string, ttlMs: nat)
    requires Balanced(b, ttlMs) && FreshIds(b, run, ttlMs) && id in b.fates
    ensures var t := After(b, run, ttlMs); id in t.fates && t.fates[id] == b.fates[id]
    decreases run
  {
    if run != [] {
      ApplyKeepsBalance(b, run[0], ttlMs);
      FatesStay(b, run[0], id, ttlMs);
      FateIsFinal(Apply(b, run[0], ttlMs), run[1..], id, ttlMs);
    }
  }

  lemma SharingIsDisjoint(fates: map<string, Fate>, o: Outcome, p: Outcome)
    requires o != p
    ensures Sharing(fates, o) !! Sharing(fates, p)
  {
  }

  lemma SharingCovers(fates: map<string, Fate>)
    ensures fates.Keys == Sharing(fates, Approved) + Sharing(fates, Refused) + Sharing(fates, TimedOut)
                          + Sharing(fates, ClosedDown) + Sharing(fates, DroppedLate)
  {
  }

  lemma FatesPartition(fates: map<string, Fate>)
    ensures |fates| == |Sharing(fates, Approved)| + |Sharing(fates, Refused)|
           + |Sharing(fates, TimedOut)| + |Sharing(fates, ClosedDown)|
           + |Sharing(fates, DroppedLate)|
  {
    hide Sharing;
    SharingCovers(fates);
    forall o, p | o != p ensures Sharing(fates, o) !! Sharing(fates, p) { SharingIsDisjoint(fates, o, p); }
    var two := Sharing(fates, Approved) + Sharing(fates, Refused);
    assert |two| == |Sharing(fates, Approved)| + |Sharing(fates, Refused)|;
    var three := two + Sharing(fates, TimedOut);
    assert |three| == |two| + |Sharing(fates, TimedOut)|;
    var four := three + Sharing(fates, ClosedDown);
    assert |four| == |three| + |Sharing(fates, ClosedDown)|;
  }
}
