/** The approval-token table: issue, validate, consume and periodic cleanup. */
module Tokens {
  import opened Types

  datatype TokenRow = TokenRow(intentId: string, txRequestHash: string, issuedAt: nat, ttlSeconds: int, consumed: bool)

  type Table = map<string, TokenRow>

  datatype Rejection = NotFound | Consumed | Expired | IntentMismatch | HashMismatch

  /** Wall clock readings are in milliseconds; rows hold whole seconds. */
  function Seconds(ms: nat): nat { ms / 1000 }

  predicate IsExpired(row: TokenRow, now: nat) {
    Seconds(now) >= row.issuedAt + row.ttlSeconds
  }

  function Issue(t: Table, id: string, intentId: string, hash: string, ttl: int, now: nat): Table {
    t[id := TokenRow(intentId, hash, Seconds(now), ttl, false)]
  }

  /** None when the token is valid. */
  function Validate(t: Table, id: string, intentId: string, hash: string, now: nat): Option<Rejection> {
    if id !in t then Some(NotFound)
    else if t[id].consumed then Some(Consumed)
    else if IsExpired(t[id], now) then Some(Expired)
    else if t[id].intentId != intentId then Some(IntentMismatch)
    else if t[id].txRequestHash != hash then Some(HashMismatch)
    else None
  }

  function Consume(t: Table, id: string): Table {
    if id in t then t[id := t[id].(consumed := true)] else t
  }

  function Cleanup(t: Table, now: nat): Table {
    map id | id in t && !IsExpired(t[id], now) :: t[id]
  }

  /** The row is for this intent and hash, unused and within its lifetime. */
  predicate Usable(t: Table, id: string, intentId: string, hash: string, now: nat) {
    id in t && !t[id].consumed && now / 1000 < t[id].issuedAt + t[id].ttlSeconds && t[id].intentId == intentId &&
    t[id].txRequestHash == hash
  }

  class ApprovalTokenManager {
    var rows: Table

    constructor ()
      ensures rows == map[]
    {
      rows := map[];
    }

    /** id stands for randomUUID, the primary key of a new row. */
    method IssueToken(id: string, intentId: string, hash: string, ttlSeconds: int, now: nat)
      requires id !in rows
      modifies this
      ensures rows == Issue(old(rows), id, intentId, hash, ttlSeconds, now)
      ensures rows == old(rows)[id := TokenRow(intentId, hash, now / 1000, ttlSeconds, false)]
      ensures ttlSeconds > 0 ==> Validate(rows, id, intentId, hash, now) == None
    {
      rows := rows[id := TokenRow(intentId, hash, now / 1000, ttlSeconds, false)];
    }

    method Get(id: string) returns (row: Option<TokenRow>)
      ensures row.None? <==> id !in rows
      ensures row.Some? ==> row.value == rows[id]
    {
      row := if id in rows then Some(rows[id]) else None;
    }

    method ValidateToken(id: string, intentId: string, hash: string, now: nat) returns (r: Option<Rejection>)
      ensures r == Validate(rows, id, intentId, hash, now)
      ensures r == Some(NotFound) <==> id !in rows
      ensures r == Some(Consumed) <==> id in rows && rows[id].consumed
      ensures r == Some(Expired) <==>
                id in rows && !rows[id].consumed && rows[id].issuedAt + rows[id].ttlSeconds <= now / 1000
      ensures r == None <==> Usable(rows, id, intentId, hash, now)
      ensures r == Some(IntentMismatch) ==> rows[id].intentId != intentId
      ensures r == Some(HashMismatch) ==> rows[id].intentId == intentId && rows[id].txRequestHash != hash
    {
      if id !in rows { return Some(NotFound); }
      var row := rows[id];
      var seconds := now / 1000;
      if row.consumed { return Some(Consumed); }
      if seconds >= row.issuedAt + row.ttlSeconds { return Some(Expired); }
      if row.intentId != intentId { return Some(IntentMismatch); }
      if row.txRequestHash != hash { return Some(HashMismatch); }
      return None;
    }

    method ConsumeToken(id: string)
      modifies this
      ensures rows == Consume(old(rows), id)
      ensures rows.Keys == old(rows).Keys
      ensures forall other :: other in rows && other != id ==> rows[other] == old(rows)[other]
      ensures id in rows ==> rows[id] == old(rows)[id].(consumed := true)
      ensures forall i, h, now :: Validate(rows, id, i, h, now).Some?
    {
      if id in rows {
        rows := rows[id := rows[id].(consumed := true)];
      }
    }

    method ValidateAndConsume(id: string, intentId: string, hash: string, now: nat) returns (r: Option<Rejection>)
      modifies this
      ensures r == Validate(old(rows), id, intentId, hash, now)
      ensures rows == if r == None then Consume(old(rows), id) else old(rows)
      ensures r == None ==> Validate(rows, id, intentId, hash, now) == Some(Consumed)
    {
      r := ValidateToken(id, intentId, hash, now);
      if r == None { ConsumeToken(id); }
    }

    method CleanupTokens(now: nat)
      modifies this
      ensures rows == Cleanup(old(rows), now)
      ensures forall id :: id in rows <==>
                id in old(rows) && now / 1000 < old(rows)[id].issuedAt + old(rows)[id].ttlSeconds
      ensures forall id :: id in rows ==> rows[id] == old(rows)[id]
    {
      rows := map id | id in rows && rows[id].issuedAt + rows[id].ttlSeconds > now / 1000 :: rows[id];
    }
  }

  // ---- runs ----

  datatype Operation =
    | OpIssue(id: string, intentId: string, hash: string, ttl: int)
    | OpValidate(id: string, intentId: string, hash: string)
    | OpConsume(id: string)
    | OpValidateAndConsume(id: string, intentId: string, hash: string)
    | OpCleanup

  datatype Timed = At(now: nat, op: Operation)

  function Apply(t: Table, e: Timed): Table {
    match e.op
    case OpIssue(id, i, h, ttl) => Issue(t, id, i, h, ttl, e.now)
    case OpValidate(_, _, _) => t
    case OpConsume(id) => Consume(t, id)
    case OpValidateAndConsume(id, i, h) => if Validate(t, id, i, h, e.now) == None then Consume(t, id) else t
    case OpCleanup => Cleanup(t, e.now)
  }

  function After(t: Table, run: seq<Timed>): Table
    decreases run
  {
    if run == [] then t else After(Apply(t, run[0]), run[1..])
  }

  /** The valid/invalid answers the run's checks get, in order. */
  function Verdicts(t: Table, run: seq<Timed>): seq<bool>
    decreases run
  {
    if run == [] then []
    else
      var rest := Verdicts(Apply(t, run[0]), run[1..]);
      match run[0].op
      case OpValidate(id, i, h) => [Validate(t, id, i, h, run[0].now) == None] + rest
      case OpValidateAndConsume(id, i, h) => [Validate(t, id, i, h, run[0].now) == None] + rest
      case _ => rest
  }

  predicate ClockFrom(start: nat, run: seq<Timed>)
    decreases run
  {
    run == [] || (start <= run[0].now && ClockFrom(run[0].now, run[1..]))
  }

  /** The same run with every cleanup left out. */
  function WithoutCleanups(run: seq<Timed>): seq<Timed> {
    if run == [] then []
    else if run[0].op.OpCleanup? then WithoutCleanups(run[1..])
    else [run[0]] + WithoutCleanups(run[1..])
  }

  /** Issued ids are new to a table that never forgets. */
  predicate FreshIds(t: Table, run: seq<Timed>)
    decreases run
  {
    run == [] ||
    ((run[0].op.OpIssue? ==> run[0].op.id !in t) &&
     FreshIds(if run[0].op.OpCleanup? then t else Apply(t, run[0]), run[1..]))
  }

  /** lean lacks only rows of full that have expired. */
  ghost predicate LacksOnlyExpired(full: Table, lean: Table, now: nat) {
    && (forall id :: id in lean ==> id in full && full[id] == lean[id])
    && (forall id :: id in full && id !in lean ==> IsExpired(full[id], now))
  }

  lemma LeanStep(full: Table, lean: Table, e: Timed, now: nat)
    requires LacksOnlyExpired(full, lean, now) && now <= e.now
    requires e.op.OpIssue? ==> e.op.id !in full
    ensures LacksOnlyExpired(if e.op.OpCleanup? then full else Apply(full, e), Apply(lean, e), e.now)
    ensures e.op.OpValidate? || e.op.OpValidateAndConsume? ==>
      (Validate(full, e.op.id, e.op.intentId, e.op.hash, e.now) == None <==>
       Validate(lean, e.op.id, e.op.intentId, e.op.hash, e.now) == None)
  {
  }

  lemma {:induction false} LeanAnswersAlike(full: Table, lean: Table, run: seq<Timed>, now: nat)
    requires LacksOnlyExpired(full, lean, now) && ClockFrom(now, run) && FreshIds(full, run)
    ensures Verdicts(full, WithoutCleanups(run)) == Verdicts(lean, run)
    decreases run
  {
    hide LacksOnlyExpired, Validate, Apply;
    if run != [] {
      var e := run[0];
      var next := if e.op.OpCleanup? then full else Apply(full, e);
      LeanStep(full, lean, e, now);
      LeanAnswersAlike(next, Apply(lean, e), run[1..], e.now);
      if !e.op.OpCleanup? {
        assert WithoutCleanups(run)[1..] == WithoutCleanups(run[1..]);
      }
    }
  }

  /** Cleanup is invisible: wherever it runs, every check gets the answer it would get
      from a table that is never cleaned. */
  lemma CleanupIsInvisible(t: Table, run: seq<Timed>, start: nat)
    requires ClockFrom(start, run) && FreshIds(t, run)
    ensures Verdicts(t, run) == Verdicts(t, WithoutCleanups(run))
  {
    LeanAnswersAlike(t, t, run, start);
  }

  predicate NeverIssues(run: seq<Timed>, id: string) {
    forall k | 0 <= k < |run| :: run[k].op.OpIssue? ==> run[k].op.id != id
  }

  predicate Spent(t: Table, id: string) {
    id in t ==> t[id].consumed
  }

  /** Once consumed or deleted, a token is never valid again. */
  lemma {:induction false} SpentStaysInvalid(t: Table, run: seq<Timed>, id: string, i: string, h: string, now: nat)
    requires Spent(t, id) && NeverIssues(run, id)
    ensures Spent(After(t, run), id)
    ensures Validate(After(t, run), id, i, h, now).Some?
    decreases run
  {
    if run != [] {
      assert Spent(Apply(t, run[0]), id);
      assert NeverIssues(run[1..], id) by {
        forall k | 0 <= k < |run| - 1 ensures run[1..][k].op.OpIssue? ==> run[1..][k].op.id != id {
          assert run[1..][k] == run[k + 1];
        }
      }
      SpentStaysInvalid(Apply(t, run[0]), run[1..], id, i, h, now);
    }
  }

  predicate LeavesAlone(op: Operation, id: string) {
    op.OpValidate? || op.OpCleanup? || op.id != id
  }

  lemma {:induction false} UntouchedRow(t: Table, run: seq<Timed>, id: string, start: nat, now: nat)
    requires id in t && ClockFrom(start, run) && start <= now
    requires forall k | 0 <= k < |run| :: LeavesAlone(run[k].op, id) && run[k].now <= now
    ensures id in After(t, run) ==> After(t, run)[id] == t[id]
    ensures id !in After(t, run) ==> IsExpired(t[id], now)
    decreases run
  {
    if run != [] {
      var u := Apply(t, run[0]);
      assert LeavesAlone(run[0].op, id) && run[0].now <= now;
      if id in u {
        assert forall k | 0 <= k < |run| - 1 :: run[1..][k] == run[k + 1];
        UntouchedRow(u, run[1..], id, run[0].now, now);
      } else {
        assert IsExpired(t[id], run[0].now);
        MissingStaysMissing(u, run[1..], id);
      }
    }
  }

  lemma {:induction false} MissingStaysMissing(t: Table, run: seq<Timed>, id: string)
    requires id !in t
    ensures id in After(t, run) ==> exists k | 0 <= k < |run| :: run[k].op.OpIssue? && run[k].op.id == id
    decreases run
  {
    if run != [] {
      if id !in Apply(t, run[0]) {
        MissingStaysMissing(Apply(t, run[0]), run[1..], id);
        if id in After(t, run) {
          var k :| 0 <= k < |run| - 1 && run[1..][k].op.OpIssue? && run[1..][k].op.id == id;
          assert run[k + 1].op.id == id;
        }
      } else {
        assert run[0].op.OpIssue? && run[0].op.id == id;
      }
    }
  }

  /** Exact lifetime: after any run that neither reissues nor consumes it, a token issued
      at `issued` with whole-second lifetime ttl is valid exactly while fewer than 1000*ttl
      milliseconds, less the sub-second part lost when the issue time was floored, have
      passed.  Hence it is valid for at least 1000*(ttl-1) ms and never from 1000*ttl ms on. */
  lemma TokenLifetime(t: Table, id: string, i: string, h: string, ttl: nat, issued: nat, run: seq<Timed>, now: nat)
    requires ttl >= 1 && issued <= now && ClockFrom(issued, run)
    requires forall k | 0 <= k < |run| :: LeavesAlone(run[k].op, id) && run[k].now <= now
    ensures var elapsed := now - issued;
      var valid := Validate(After(Issue(t, id, i, h, ttl, issued), run), id, i, h, now) == None;
      && (valid <==> elapsed + issued % 1000 < 1000 * ttl)
      && (elapsed <= 1000 * (ttl - 1) ==> valid)
      && (elapsed >= 1000 * ttl ==> !valid)
  {
    UntouchedRow(Issue(t, id, i, h, ttl, issued), run, id, issued, now);
  }
}
