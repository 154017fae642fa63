/** The rate limiter and the tick accounting over whole runs of the protocol. */
module Accounting {
  import opened Types
  import opened Protocol
  import opened Frames
  import Audit
  import Policy
  import Tokens
  import RateLimit
  import Builders
  import Wallet
  import Text

  // ---- sliding window ----

  ghost predicate RateOk(c: Config, rate: RateLimit.Ledger, now: nat) {
    RateLimit.Inv(rate, now, c.policy.maxTxPerHour)
  }

  /** A decision other than deny is taken only while fewer than the maximum are recent. */
  lemma ChargeKeepsRate(c: Config, s: State, i: Intent, risk: Option<int>)
    requires RateOk(c, s.rate, s.now)
    ensures RateOk(c, Charge(c, s, i, risk).rate, s.now)
  {
    hide RateLimit.Faithful, RateLimit.Throttled, RateLimit.Record, RateLimit.Recent;
    hide Policy.AnyTokenRejected, Policy.ContractRejected, Policy.RecipientRejected, Policy.OverCap,
         Policy.NeedsApproval;
    if Decision(c, s, i, risk) != Policy.Deny {
      RateLimit.RecordKeepsInv(s.rate, i.wallet, s.now, c.policy.maxTxPerHour);
    }
  }

  lemma PlanKeepsRate(c: Config, s: State, pid: nat, h: Handler, client: Option<Builders.OneInchReply>, plan: BuildPlan,
                      newId: string)
    requires RateOk(c, s.rate, s.now) && (h.BuildBuilding? || h.ApproveBuilding? || h.SignBuilding?)
    ensures var t := OnPlan(c, s, pid, h, client, plan, newId); RateOk(c, t.rate, t.now)
  {
    hide Builders.WellFormed, RateOk, OnRiskKnown, OnSignPlan, Charge;
    match h
    case BuildBuilding(_) =>
    case ApproveBuilding(i) =>
      if c.rpc(i.chainId) {} else {
        RiskKnownFrame(c, s, pid, i, plan, 0, newId);
        ChargeKeepsRate(c, s, i, Some(0));
      }
    case SignBuilding(i, offered) =>
      SignPlanFrame(c, s, pid, i, offered, client, plan);
      ChargeKeepsRate(c, s, i, None);
  }

  lemma BuiltKeepsRate(c: Config, s: State, pid: nat, h: Handler, client: Option<Builders.OneInchReply>, newId: string)
    requires RateOk(c, s.rate, s.now) && (h.BuildBuilding? || h.ApproveBuilding? || h.SignBuilding?)
    ensures var t := OnBuilt(c, s, pid, h, client, newId); RateOk(c, t.rate, t.now)
  {
    hide Builders.WellFormed, Builders.BuildFromIntent, RateOk, OnPlan;
    match Builders.BuildFromIntent(c.keccak, h.intent, client)
    case Err(_) =>
    case Ok(plan) => PlanKeepsRate(c, s, pid, h, client, plan, newId);
  }

  lemma LaterKeepsRate(c: Config, rate: RateLimit.Ledger, now: nat, ms: nat)
    requires RateOk(c, rate, now)
    ensures RateOk(c, rate, now + ms)
  {
    hide RateLimit.Throttled;
  }

  lemma HandlerKeepsRate(c: Config, s: State, l: Label)
    requires RateOk(c, s.rate, s.now) && Act(c, s, l).Some?
    requires l.ReceiveBuild? || l.Built? || l.Simulated?
    ensures RateOk(c, Act(c, s, l).value.rate, Act(c, s, l).value.now)
  {
    hide OnBuilt, OnRiskKnown, OnReceiveBuild, Charge, RateOk, Builders.WellFormed;
    match l
    case ReceiveBuild(i) =>
      ReceiveBuildFrame(c, s, i);
      ChargeKeepsRate(c, s, i, None);
    case Simulated(pid, risk, newId) =>
      if risk.Some? {
        RiskKnownFrame(c, s, pid, s.handlers[pid].intent, s.handlers[pid].plan, risk.value, newId);
        ChargeKeepsRate(c, s, s.handlers[pid].intent, Some(risk.value));
      }
    case Built(pid, client, newId) => BuiltKeepsRate(c, s, pid, s.handlers[pid], client, newId);
  }

  lemma OthersKeepRate(c: Config, s: State, l: Label)
    requires Act(c, s, l).Some?
    requires !(l.Advance? || l.RateCleanup? || l.ReceiveBuild? || l.Built? || l.Simulated?)
    ensures Act(c, s, l).value.rate == s.rate && Act(c, s, l).value.now == s.now
  {
    hide Act;
    match l
    case PromptSettled(pid, newId) => IssueFrame(c, s, pid, newId);
    case SigningReturned(pid, ok) => SignatureFrame(c, s, pid, ok);
    case ReceiveApprove(_) => WorkFrame(c, s, l);
    case ReceiveSign(_, _) => WorkFrame(c, s, l);
    case Estimated(_, _) => WorkFrame(c, s, l);
    case Sent(_) => WorkFrame(c, s, l);
    case _ => EnvironmentFrame(c, s, l);
  }

  lemma ActKeepsRate(c: Config, s: State, l: Label)
    requires RateOk(c, s.rate, s.now) && Act(c, s, l).Some?
    ensures RateOk(c, Act(c, s, l).value.rate, Act(c, s, l).value.now)
  {
    hide RateOk, Act;
    if l.Advance? || l.RateCleanup? {
      ClockKeepsRate(c, s, l);
    } else if l.ReceiveBuild? || l.Built? || l.Simulated? {
      HandlerKeepsRate(c, s, l);
    } else {
      OthersKeepRate(c, s, l);
    }
  }

  lemma ClockKeepsRate(c: Config, s: State, l: Label)
    requires RateOk(c, s.rate, s.now) && Act(c, s, l).Some? && (l.Advance? || l.RateCleanup?)
    ensures RateOk(c, Act(c, s, l).value.rate, Act(c, s, l).value.now)
  {
    hide RateOk, Builders.WellFormed;
    if l.Advance? {
      LaterKeepsRate(c, s.rate, s.now, l.ms);
    } else {
      SweepKeepsRate(c, s.rate, s.now, l.window);
    }
  }

  lemma SweepKeepsRate(c: Config, rate: RateLimit.Ledger, now: nat, window: nat)
    requires RateOk(c, rate, now) && window >= RateLimit.RATE_LIMIT_WINDOW_MS
    ensures RateOk(c, RateLimit.Sweep(rate, window, now), now)
  {
    RateLimit.SweepKeepsInv(rate, window, now, c.policy.maxTxPerHour);
  }

  lemma {:induction false} RunKeepsRate(c: Config, run: seq<Label>)
    requires Exec(c, run).Some?
    ensures RateOk(c, Exec(c, run).value.rate, Exec(c, run).value.now)
  {
    hide Act;
    if run != [] {
      hide RateOk;
      RunKeepsRate(c, run[..|run| - 1]);
      ActKeepsRate(c, Exec(c, run[..|run| - 1]).value, run[|run| - 1]);
    }
  }

  /** In every run, for every wallet text and every window of one hour, at most maxTxPerHour
      decisions other than deny are recorded. */
  lemma RateLimitHolds(c: Config, run: seq<Label>, wallet: string, lo: int)
    requires Exec(c, run).Some?
    ensures RateLimit.CountIn(Exec(c, run).value.rate.ever, wallet, lo, lo + 3_600_000) <= c.policy.maxTxPerHour
  {
    hide Exec, RateLimit.Throttled;
    RunKeepsRate(c, run);
    RateLimit.WindowBound(Exec(c, run).value.rate.ever, c.policy.maxTxPerHour, wallet, lo);
  }

  /** In every run an account of which one spelling was used keeps to the documented limit. */
  lemma AccountLimitHolds(c: Config, run: seq<Label>, address: string, lo: int)
    requires Exec(c, run).Some? && |RateLimit.Spellings(Exec(c, run).value.rate.ever, address)| <= 1
    ensures var ever := Exec(c, run).value.rate.ever;
      RateLimit.CountAny(ever, RateLimit.Spellings(ever, address), lo, lo + 3_600_000) <= c.policy.maxTxPerHour
  {
    hide Exec, RateLimit.Throttled, RateLimit.Spellings, RateLimit.CountAny;
    RunKeepsRate(c, run);
    var ever := Exec(c, run).value.rate.ever;
    RateLimit.AccountBound(ever, c.policy.maxTxPerHour, address, lo);
    RateLimit.SmallShare(c.policy.maxTxPerHour, |RateLimit.Spellings(ever, address)|);
  }

  lemma ExecNext(c: Config, run: seq<Label>, l: Label)
    requires Exec(c, run).Some?
    ensures Exec(c, run + [l]) == Step(c, Exec(c, run).value, l)
  {
    hide Step;
    assert (run + [l])[..|run|] == run;
  }

  /** n builds of one intent. */
  function Copies(i: ValidIntent, n: nat): seq<Label> {
    if n == 0 then [] else Copies(i, n - 1) + [ReceiveBuild(i)]
  }

  /** The rate rule denies only from the maximum on. */
  lemma BelowTheMaximum(i: Intent, c: PolicyConfig, n: nat)
    requires Policy.Decide(i, c, Policy.Options(None, Some(0))) != Policy.Deny
    ensures c.maxTxPerHour > 0
    ensures n < c.maxTxPerHour ==> Policy.Decide(i, c, Policy.Options(None, Some(n))) != Policy.Deny
  {
    hide Policy.AnyTokenRejected, Policy.ContractRejected, Policy.RecipientRejected, Policy.OverCap;
  }

  lemma BuildCounts(c: Config, s: State, i: ValidIntent)
    requires Policy.Decide(i, c.policy, Policy.Options(None, Some(0))) != Policy.Deny
    requires Recent(s, i) < c.policy.maxTxPerHour
    ensures Step(c, s, ReceiveBuild(i)).Some?
    ensures Step(c, s, ReceiveBuild(i)).value.rate == RateLimit.Record(s.rate, i.wallet, s.now)
    ensures Step(c, s, ReceiveBuild(i)).value.now == s.now
  {
    hide Builders.WellFormed, Policy.Decide, Recent;
    BelowTheMaximum(i, c.policy, Recent(s, i));
  }

  lemma {:induction false} CopiesFill(c: Config, i: ValidIntent, n: nat)
    requires n <= c.policy.maxTxPerHour
    requires Policy.Decide(i, c.policy, Policy.Options(None, Some(0))) != Policy.Deny
    ensures Exec(c, Copies(i, n)).Some?
    ensures Exec(c, Copies(i, n)).value.rate == RateLimit.Fill(i.wallet, n) && Exec(c, Copies(i, n)).value.now == 0
  {
    hide Builders.WellFormed, Policy.Decide, Step;
    if n == 0 {
    } else {
      hide RateLimit.Recent;
      var fewer := Copies(i, n - 1);
      CopiesFill(c, i, n - 1);
      RateLimit.FillRecent(i.wallet, i.wallet, n - 1);
      BuildCounts(c, Exec(c, fewer).value, i);
      ExecNext(c, fewer, ReceiveBuild(i));
    }
  }

  /** An account that uses up its maximum under one spelling has one more transaction let through
      under another, whatever the maximum is. */
  lemma TwoSpellings(c: Config, i: ValidIntent, j: ValidIntent)
    requires i.wallet != j.wallet && Text.SameLetters(i.wallet, j.wallet)
    requires Policy.Decide(i, c.policy, Policy.Options(None, Some(0))) != Policy.Deny
    requires Policy.Decide(j, c.policy, Policy.Options(None, Some(0))) != Policy.Deny
    ensures var run := Copies(i, c.policy.maxTxPerHour) + [ReceiveBuild(j)];
      Exec(c, run).Some? &&
      var ever := Exec(c, run).value.rate.ever;
      RateLimit.InHour(ever, RateLimit.Spellings(ever, i.wallet), 0) == c.policy.maxTxPerHour + 1
  {
    hide Builders.WellFormed, Policy.Decide, Exec, Step, RateLimit.Recent, RateLimit.Fill, Text.SameLetters, Copies;
    hide RateLimit.Record, RateLimit.InHour, RateLimit.Spellings;
    var max := c.policy.maxTxPerHour;
    var copies := Copies(i, max);
    BelowTheMaximum(i, c.policy, 0);
    CopiesFill(c, i, max);
    RateLimit.FillRecent(i.wallet, j.wallet, max);
    BuildCounts(c, Exec(c, copies).value, j);
    ExecNext(c, copies, ReceiveBuild(j));
    AccountOfTwo(i.wallet, j.wallet, max);
  }

  lemma AccountOfTwo(a: string, b: string, n: nat)
    requires Text.SameLetters(a, b) && n > 0
    ensures var ever := RateLimit.Record(RateLimit.Fill(a, n), b, 0).ever;
      RateLimit.InHour(ever, RateLimit.Spellings(ever, a), 0) == n + 1
  {
    hide RateLimit.CountAny, Text.Lower;
    var filled := RateLimit.Fill(a, n).ever;
    var ever := filled + [Audit.Tick(b, 0)];
    var wallets := RateLimit.Spellings(ever, a);
    assert filled == RateLimit.Fill(a, n - 1).ever + [Audit.Tick(a, 0)];
    assert Audit.Tick(a, 0) in ever && Audit.Tick(b, 0) in ever;
    assert a in wallets && b in wallets;
    RateLimit.FillCounts(a, wallets, n);
    RateLimit.OneTickMore(filled, Audit.Tick(b, 0), wallets, 0, RateLimit.RATE_LIMIT_WINDOW_MS);
  }

  /** Against docs/configuration.md:96, at real addresses: whatever positive maximum is set, two
      spellings of one account have one transaction more let through, all in one millisecond. */
  lemma TwoSpellingsPassTheLimit(c: Config)
    requires c.policy == Builders.NoCaps(c.policy.maxTxPerHour) && c.policy.maxTxPerHour > 0
    ensures var i, j := Builders.SmallTransfer('a'), Builders.SmallTransfer('A');
      var run := Copies(i, c.policy.maxTxPerHour) + [ReceiveBuild(j)];
      Exec(c, run).Some? &&
      var ever := Exec(c, run).value.rate.ever;
      RateLimit.InHour(ever, RateLimit.Spellings(ever, i.wallet), 0) == c.policy.maxTxPerHour + 1
  {
    hide Exec, RateLimit.InHour, RateLimit.Spellings, Text.SameLetters;
    var i, j := Builders.SmallTransfer('a'), Builders.SmallTransfer('A');
    SameAccount();
    Builders.NoCapsAllowValue(i, c.policy.maxTxPerHour, Policy.Options(None, Some(0)));
    Builders.NoCapsAllowValue(j, c.policy.maxTxPerHour, Policy.Options(None, Some(0)));
    TwoSpellings(c, i, j);
  }

  lemma SameAccount()
    ensures Builders.SmallTransfer('a').wallet != Builders.SmallTransfer('A').wallet
    ensures Text.SameLetters(Builders.SmallTransfer('a').wallet, Builders.SmallTransfer('A').wallet)
  {
    var a, b := Builders.SmallTransfer('a').wallet, Builders.SmallTransfer('A').wallet;
    assert a[2] == 'a' && b[2] == 'A';
    forall k | 0 <= k < |a| ensures Text.LowerChar(a[k]) == Text.LowerChar(b[k]) {
      if k > 2 { assert a[k] == b[k]; }
    }
    assert Text.Lower(a) == Text.Lower(b);
  }

  // ---- tick conservation ----

  function TicksOf(ticks: seq<Audit.Tick>, wallet: string): nat {
    if ticks == [] then 0
    else TicksOf(ticks[..|ticks| - 1], wallet) + (if ticks[|ticks| - 1].wallet == wallet then 1 else 0)
  }

  function SignedFor(signatures: seq<Signature>, wallet: string): nat {
    if signatures == [] then 0
    else SignedFor(signatures[..|signatures| - 1], wallet) +
         (if signatures[|signatures| - 1].job.intent.wallet == wallet then 1 else 0)
  }

  function IssuedFor(issues: map<string, Issue>, wallet: string): set<string> {
    set t | t in issues && issues[t].wallet == wallet
  }

  /** The handler has paid a tick that a token or a signature may still use. */
  predicate Owes(h: Handler, wallet: string) {
    match h
    case ApprovePrompting(i, _, _) => i.wallet == wallet
    case SignEstimating(job) => job.intent.wallet == wallet
    case SignSigning(job, _, _) => job.intent.wallet == wallet
    case _ => false
  }

  function Owing(handlers: map<nat, Handler>, wallet: string): set<nat> {
    set p | p in handlers && Owes(handlers[p], wallet)
  }

  /** Ticks cover the tokens issued, the signatures made and the ticks still owed. */
  ghost predicate Conserved(s: State, wallet: string) {
    TicksOf(s.rate.ever, wallet) >=
      |IssuedFor(s.issues, wallet)| + SignedFor(s.signatures, wallet) + |Owing(s.handlers, wallet)|
  }

  lemma OwingWithout(handlers: map<nat, Handler>, pid: nat, wallet: string)
    ensures |Owing(handlers, wallet)| == |Owing(handlers - {pid}, wallet)| +
      if pid in handlers && Owes(handlers[pid], wallet) then 1 else 0
  {
    hide Owes, Builders.WellFormed;
    if pid in handlers && Owes(handlers[pid], wallet) {
      assert Owing(handlers, wallet) == Owing(handlers - {pid}, wallet) + {pid};
    } else {
      assert Owing(handlers, wallet) == Owing(handlers - {pid}, wallet);
    }
  }

  lemma OwingAfter(handlers: map<nat, Handler>, pid: nat, h: Handler, wallet: string)
    ensures |Owing(handlers[pid := h], wallet)| ==
      |Owing(handlers - {pid}, wallet)| + if Owes(h, wallet) then 1 else 0
  {
    hide Builders.WellFormed;
    OwingWithout(handlers[pid := h], pid, wallet);
    assert handlers[pid := h] - {pid} == handlers - {pid};
  }

  lemma OneMoreTick(ticks: seq<Audit.Tick>, t: Audit.Tick, wallet: string)
    ensures TicksOf(ticks + [t], wallet) == TicksOf(ticks, wallet) + if t.wallet == wallet then 1 else 0
  {
    assert (ticks + [t])[..|ticks|] == ticks;
  }

  lemma OneMoreSignature(signatures: seq<Signature>, sig: Signature, wallet: string)
    ensures SignedFor(signatures + [sig], wallet) ==
      SignedFor(signatures, wallet) + if sig.job.intent.wallet == wallet then 1 else 0
  {
    assert (signatures + [sig])[..|signatures|] == signatures;
  }

  lemma OneMoreIssue(issues: map<string, Issue>, t: string, issue: Issue, wallet: string)
    requires t !in issues
    ensures |IssuedFor(issues[t := issue], wallet)| ==
      |IssuedFor(issues, wallet)| + if issue.wallet == wallet then 1 else 0
  {
    if issue.wallet == wallet {
      assert IssuedFor(issues[t := issue], wallet) == IssuedFor(issues, wallet) + {t};
    } else {
      assert IssuedFor(issues[t := issue], wallet) == IssuedFor(issues, wallet);
    }
  }

  lemma ChargeTicks(c: Config, s: State, i: Intent, risk: Option<int>, wallet: string)
    ensures TicksOf(Charge(c, s, i, risk).rate.ever, wallet) == TicksOf(s.rate.ever, wallet) +
           if Decision(c, s, i, risk) != Policy.Deny && i.wallet == wallet then 1 else 0
  {
    hide Policy.Decide;
    OneMoreTick(s.rate.ever, Audit.Tick(i.wallet, s.now), wallet);
  }

  /** Ending a handler, or letting it go on owing no more than it owed plus the ticks gained. */
  lemma HandlerMoves(s: State, t: State, pid: nat, next: Option<Handler>, wallet: string)
    requires Conserved(s, wallet)
    requires t.handlers == Put(s.handlers, pid, next)
    requires t.issues == s.issues
    requires t.signatures == s.signatures
    requires TicksOf(t.rate.ever, wallet) >= TicksOf(s.rate.ever, wallet)
    requires next.Some? && Owes(next.value, wallet) ==>
      TicksOf(t.rate.ever, wallet) > TicksOf(s.rate.ever, wallet) ||
      (pid in s.handlers && Owes(s.handlers[pid], wallet))
    ensures Conserved(t, wallet)
  {
    hide Owes, TicksOf, SignedFor, IssuedFor, Builders.WellFormed, Owing;
    OwingWithout(s.handlers, pid, wallet);
    if next.Some? { OwingAfter(s.handlers, pid, next.value, wallet); }
  }

  lemma SameUse(s: State, t: State, wallet: string)
    requires Conserved(s, wallet) && t.issues == s.issues && t.signatures == s.signatures
    requires t.handlers == s.handlers && TicksOf(t.rate.ever, wallet) >= TicksOf(s.rate.ever, wallet)
    ensures Conserved(t, wallet)
  {
    hide TicksOf, SignedFor, IssuedFor, Owing;
  }

  lemma RestartConserves(s: State, t: State, wallet: string)
    requires Conserved(s, wallet) && t.handlers == map[]
    requires t.issues == s.issues && t.signatures == s.signatures && t.rate == s.rate
    ensures Conserved(t, wallet)
  {
    hide Owes, TicksOf, SignedFor, IssuedFor, Builders.WellFormed;
    assert Owing(map[], wallet) == {};
  }

  lemma PlanConserves(c: Config, s: State, pid: nat, h: Handler, client: Option<Builders.OneInchReply>, plan: BuildPlan,
                      newId: string, wallet: string)
    requires Conserved(s, wallet) && (h.BuildBuilding? || h.ApproveBuilding? || h.SignBuilding?)
    ensures Conserved(OnPlan(c, s, pid, h, client, plan, newId), wallet)
  {
    hide Conserved, TicksOf, Builders.WellFormed, OnRiskKnown, OnSignPlan;
    match h
    case BuildBuilding(_) => FinishConserves(s, pid, wallet);
    case ApproveBuilding(i) =>
      if c.rpc(i.chainId) {
        HandlerMoves(s, Suspend(s, pid, ApproveSimulating(i, plan)), pid, Some(ApproveSimulating(i, plan)), wallet);
      } else {
        RiskKnownConserves(c, s, pid, i, plan, 0, newId, wallet);
      }
    case SignBuilding(i, offered) => SignPlanConserves(c, s, pid, i, offered, client, plan, wallet);
  }

  lemma BuiltConserves(c: Config, s: State, pid: nat, h: Handler, client: Option<Builders.OneInchReply>,
                       newId: string, wallet: string)
    requires Conserved(s, wallet) && (h.BuildBuilding? || h.ApproveBuilding? || h.SignBuilding?)
    ensures Conserved(OnBuilt(c, s, pid, h, client, newId), wallet)
  {
    hide Conserved, Builders.WellFormed, Builders.BuildFromIntent, OnPlan, Finish;
    match Builders.BuildFromIntent(c.keccak, h.intent, client)
    case Err(_) => FinishConserves(s, pid, wallet);
    case Ok(plan) => PlanConserves(c, s, pid, h, client, plan, newId, wallet);
  }

  lemma RiskKnownConserves(c: Config, s: State, pid: nat, i: ValidIntent, plan: BuildPlan, risk: nat,
                           newId: string, wallet: string)
    requires Conserved(s, wallet)
    ensures Conserved(OnRiskKnown(c, s, pid, i, plan, risk, newId), wallet)
  {
    hide OnRiskKnown, Conserved, TicksOf, Builders.WellFormed, Charge, Decision;
    RiskKnownFrame(c, s, pid, i, plan, risk, newId);
    ChargeTicks(c, s, i, Some(risk), wallet);
    HandlerMoves(s, OnRiskKnown(c, s, pid, i, plan, risk, newId), pid,
                 RiskKnownNext(c, s, i, plan, risk, newId), wallet);
  }

  lemma SignPlanConserves(c: Config, s: State, pid: nat, i: ValidIntent, offered: Option<string>,
                          client: Option<Builders.OneInchReply>, plan: BuildPlan, wallet: string)
    requires Conserved(s, wallet)
    ensures Conserved(OnSignPlan(c, s, pid, i, offered, client, plan), wallet)
  {
    hide OnSignPlan, Conserved, TicksOf, Builders.WellFormed, Charge, Recent, Tokens.Validate, Wallet.Gate;
    SignPlanFrame(c, s, pid, i, offered, client, plan);
    ChargeTicks(c, s, i, None, wallet);
    HandlerMoves(s, OnSignPlan(c, s, pid, i, offered, client, plan), pid,
                 SignPlanNext(c, s, i, offered, client, plan), wallet);
  }

  lemma IssueConserves(s: State, pid: nat, h: Handler, newId: string, wallet: string)
    requires Conserved(s, wallet) && pid in s.handlers && s.handlers[pid] == h
    requires h.ApprovePrompting? && h.request in s.settled && newId !in s.issues
    ensures Conserved(OnPromptSettled(s, pid, h, newId), wallet)
  {
    hide TicksOf, SignedFor, IssuedFor, Owing, Builders.WellFormed;
    OwingWithout(s.handlers, pid, wallet);
    OneMoreIssue(s.issues, newId,
                 Issue(h.request, h.intent.id, h.plan.txRequestHash, h.intent.wallet, s.now, s.step), wallet);
  }

  lemma AuthorizeConserves(s: State, pid: nat, job: Job, extras: Option<Extras>, wallet: string)
    requires Conserved(s, wallet) && pid in s.handlers && s.handlers[pid] == SignEstimating(job)
    ensures Conserved(OnAuthorize(s, pid, job, extras), wallet)
  {
    hide OnAuthorize, Conserved, TicksOf, Builders.WellFormed, Wallet.Gate;
    AuthorizeFrame(s, pid, job, extras);
    HandlerMoves(s, OnAuthorize(s, pid, job, extras), pid, AuthorizeNext(s, job, extras), wallet);
  }

  lemma FinishConserves(s: State, pid: nat, wallet: string)
    requires Conserved(s, wallet)
    ensures Conserved(Finish(s, pid), wallet)
  {
    hide Conserved, TicksOf, Builders.WellFormed;
    HandlerMoves(s, Finish(s, pid), pid, None, wallet);
  }

  lemma SignatureConserves(c: Config, s: State, pid: nat, h: Handler, wallet: string)
    requires Conserved(s, wallet) && pid in s.handlers && s.handlers[pid] == h && h.SignSigning?
    ensures Conserved(OnSigned(c, s, pid, h), wallet)
  {
    hide TicksOf, SignedFor, IssuedFor, Owing, Builders.WellFormed;
    OwingWithout(s.handlers, pid, wallet);
    if c.rpc(h.job.intent.chainId) { OwingAfter(s.handlers, pid, SignBroadcasting(h.job.intent), wallet); }
    OneMoreSignature(s.signatures, Signature(pid, h.job, h.extras, h.key, s.step), wallet);
  }

  lemma ReceiveConserves(s: State, h: Handler, wallet: string)
    requires Conserved(s, wallet) && !Owes(h, wallet)
    ensures Conserved(Receive(s, h), wallet)
  {
    hide Conserved, TicksOf, Owes, Builders.WellFormed;
    HandlerMoves(s, Receive(s, h), s.nextPid, Some(h), wallet);
  }

  lemma ReceiveBuildConserves(c: Config, s: State, i: ValidIntent, wallet: string)
    requires Conserved(s, wallet)
    ensures Conserved(OnReceiveBuild(c, s, i), wallet)
  {
    hide OnReceiveBuild, Conserved, TicksOf, Builders.WellFormed, Charge, Decision, Put;
    ReceiveBuildFrame(c, s, i);
    ChargeTicks(c, s, i, None, wallet);
    var t := OnReceiveBuild(c, s, i);
    if Decision(c, s, i, None) == Policy.Deny {
      SameUse(s, t, wallet);
    } else {
      HandlerMoves(s, t, s.nextPid, Some(BuildBuilding(i)), wallet);
    }
  }

  lemma HandlerConserves(c: Config, s: State, l: Label, wallet: string)
    requires Conserved(s, wallet) && Act(c, s, l).Some?
    requires l.Built? || l.Simulated? || l.PromptSettled? || l.Estimated? || l.SigningReturned? || l.Sent?
    ensures Conserved(Act(c, s, l).value, wallet)
  {
    hide Conserved, Builders.WellFormed, OnRiskKnown, OnBuilt, OnSigned, OnPromptSettled, OnAuthorize, Finish;
    match l
    case Built(pid, client, newId) => BuiltConserves(c, s, pid, s.handlers[pid], client, newId, wallet);
    case Simulated(pid, risk, newId) =>
      if risk.None? { FinishConserves(s, pid, wallet); }
      else { RiskKnownConserves(c, s, pid, s.handlers[pid].intent, s.handlers[pid].plan, risk.value, newId, wallet); }
    case PromptSettled(pid, newId) => IssueConserves(s, pid, s.handlers[pid], newId, wallet);
    case Estimated(pid, extras) => AuthorizeConserves(s, pid, s.handlers[pid].job, extras, wallet);
    case SigningReturned(pid, ok) =>
      if ok { SignatureConserves(c, s, pid, s.handlers[pid], wallet); }
      else { FinishConserves(s, pid, wallet); }
    case Sent(pid) => FinishConserves(s, pid, wallet);
  }

  lemma NewcomerConserves(c: Config, s: State, l: Label, wallet: string)
    requires Conserved(s, wallet) && Act(c, s, l).Some? && (l.ReceiveBuild? || l.ReceiveApprove? || l.ReceiveSign?)
    ensures Conserved(Act(c, s, l).value, wallet)
  {
    hide Conserved, Builders.WellFormed, OnReceiveBuild, Receive;
    match l
    case ReceiveBuild(i) => ReceiveBuildConserves(c, s, i, wallet);
    case ReceiveApprove(i) => ReceiveConserves(s, ApproveBuilding(i), wallet);
    case ReceiveSign(i, offered) => ReceiveConserves(s, SignBuilding(i, offered), wallet);
  }

  lemma SweptConserves(c: Config, s: State, l: Label, wallet: string)
    requires Conserved(s, wallet) && Act(c, s, l).Some? && l.RateCleanup?
    ensures Conserved(Act(c, s, l).value, wallet)
  {
    hide Conserved, Builders.WellFormed;
    SameUse(s, Act(c, s, l).value, wallet);
  }

  lemma EnvironmentConserves(c: Config, s: State, l: Label, wallet: string)
    requires Conserved(s, wallet) && Act(c, s, l).Some? && Environment(l)
    ensures Conserved(Act(c, s, l).value, wallet)
  {
    hide Act, Conserved, Builders.WellFormed;
    var t := Act(c, s, l).value;
    if l.RateCleanup? {
      SweptConserves(c, s, l, wallet);
    } else if l.WebDecide? || l.PromptAnswered? {
      ReplyFrame(c, s, l);
      SameUse(s, t, wallet);
    } else {
      WorldFrame(c, s, l);
      if l.Restart? { RestartConserves(s, t, wallet); } else { SameUse(s, t, wallet); }
    }
  }

  lemma ActConserves(c: Config, s: State, l: Label, wallet: string)
    requires Conserved(s, wallet) && Act(c, s, l).Some?
    ensures Conserved(Act(c, s, l).value, wallet)
  {
    hide Conserved, Act;
    if l.Built? || l.Simulated? || l.PromptSettled? || l.Estimated? || l.SigningReturned? || l.Sent? {
      HandlerConserves(c, s, l, wallet);
    } else if Environment(l) {
      EnvironmentConserves(c, s, l, wallet);
    } else {
      NewcomerConserves(c, s, l, wallet);
    }
  }

  lemma {:induction false} RunConserves(c: Config, run: seq<Label>, wallet: string)
    requires Exec(c, run).Some?
    ensures Conserved(Exec(c, run).value, wallet)
  {
    hide Act;
    if run == [] {
      assert IssuedFor(INIT.issues, wallet) == {} && Owing(INIT.handlers, wallet) == {};
    } else {
      hide Conserved;
      var s := Exec(c, run[..|run| - 1]).value;
      var l := run[|run| - 1];
      RunConserves(c, run[..|run| - 1], wallet);
      ActConserves(c, s, l, wallet);
      SameUse(Act(c, s, l).value, Step(c, s, l).value, wallet);
    }
  }

  /** At every point of every run, for each wallet text, at least as many ticks have been
      recorded as tokens issued plus signatures made. */
  lemma TicksCoverTokensAndSignatures(c: Config, run: seq<Label>, wallet: string)
    requires Exec(c, run).Some?
    ensures var s := Exec(c, run).value;
      TicksOf(s.rate.ever, wallet) >= |IssuedFor(s.issues, wallet)| + SignedFor(s.signatures, wallet)
  {
    hide Exec, TicksOf, SignedFor, IssuedFor, Owing;
    RunConserves(c, run, wallet);
  }
}
