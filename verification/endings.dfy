/** How requests come to an end: prompts nobody answers, cleanups, restarts, and the number of
    steps a request takes. */
module Endings {
  import opened Types
  import opened Protocol
  import opened Frames
  import opened Safety
  import opened Moves
  import Audit
  import Pending
  import Builders
  import Accounting
  import Policy

  // ---- prompts nobody answers ----

  lemma PromptHeld(c: Config, s: State, r: string)
    requires Inv(c, s) && r in s.pending
    ensures r in s.prompts && r !in s.answers && !s.pending[r].decided && s.pending[r].createdAt == s.prompts[r].at
  {
    hide AnswersOk, SettledOk, PromptsOk, IssuesOk, TokensOk, SpendingsOk, SignaturesOk, HandlersOk, PidsOk, HistoryOk;
  }

  /** In every run a cleanup refuses a prompt that is still held exactly when its lifetime is over,
      and touches no other. */
  lemma CleanupRefusesIff(c: Config, run: seq<Label>, r: string)
    requires Exec(c, run).Some? && r in Exec(c, run).value.pending
    ensures var s := Exec(c, run).value;
      r in s.prompts && r !in s.answers && Step(c, s, PendingCleanup).Some? &&
      var t := Step(c, s, PendingCleanup).value;
      if s.now - s.prompts[r].at > c.ttlMs then r !in t.pending && r in t.settled && !t.settled[r]
      else r in t.pending && t.pending[r] == s.pending[r] && (r in t.settled <==> r in s.settled)
  {
    hide Exec, Builders.WellFormed, Inv;
    RunKeepsInv(c, run);
    PromptHeld(c, Exec(c, run).value, r);
  }

  /** Closing the store refuses every prompt that is held. */
  lemma ClosingRefuses(c: Config, s: State, r: string)
    requires r in s.pending
    ensures Step(c, s, ClosePending).Some?
    ensures var t := Step(c, s, ClosePending).value; t.pending == map[] && r in t.settled && !t.settled[r]
  {
    hide Builders.WellFormed;
  }

  /** From every reachable state: the request that waits for a prompt which is still held after its
      lifetime ends with the next cleanup, without a token. */
  lemma OverduePromptEnds(c: Config, run: seq<Label>, pid: nat, i: ValidIntent, plan: BuildPlan, r: string, tok: string)
    requires Exec(c, run).Some? && tok !in Exec(c, run).value.issues
    requires var s := Exec(c, run).value;
      pid in s.handlers && s.handlers[pid] == ApprovePrompting(i, plan, r) && r in s.pending &&
      r in s.prompts && s.now - s.prompts[r].at > c.ttlMs
    ensures var s := Exec(c, run).value; var all := run + [PendingCleanup] + [PromptSettled(pid, tok)];
      Exec(c, all).Some? && var t := Exec(c, all).value;
      pid !in t.handlers && t.issues == s.issues && t.tokens == s.tokens && t.signatures == s.signatures &&
      r !in t.answers
  {
    hide Exec, Inv, Step, Builders.WellFormed;
    var s := Exec(c, run).value;
    CleanupRefusesIff(c, run, r);
    Accounting.ExecNext(c, run, PendingCleanup);
    CleanupTouches(c, s);
    RunKeepsInv(c, run);
    PromptHeld(c, s, r);
    var t := Step(c, s, PendingCleanup).value;
    Accounting.ExecNext(c, run + [PendingCleanup], PromptSettled(pid, tok));
    RefusedStep(c, t, pid, i, plan, r, tok);
  }

  lemma CleanupTouches(c: Config, s: State)
    ensures Step(c, s, PendingCleanup).Some?
    ensures var t := Step(c, s, PendingCleanup).value;
      t == s.(pending := t.pending, settled := t.settled, step := t.step)
  {
    hide Builders.WellFormed, Pending.Cleanup;
  }

  // ---- what the cleaners leave ----

  /** After the token cleaner exactly the tokens within their lifetime are left, as they were; after
      the tick cleaner exactly the ticks younger than its window, which is at least an hour. */
  lemma CleanersLeave(c: Config, s: State, window: nat, token: string, tick: Audit.Tick)
    ensures Step(c, s, TokenCleanup).Some?
    ensures var t := Step(c, s, TokenCleanup).value;
      (token in t.tokens <==>
         token in s.tokens && s.now / 1000 < s.tokens[token].issuedAt + s.tokens[token].ttlSeconds) &&
      (token in t.tokens ==> t.tokens[token] == s.tokens[token])
    ensures Step(c, s, RateCleanup(window)).Some? <==> window >= 3_600_000
    ensures window >= 3_600_000 ==>
      var t := Step(c, s, RateCleanup(window)).value;
      t.rate.ever == s.rate.ever &&
      multiset(t.rate.table)[tick] == if s.now - tick.at < window then multiset(s.rate.table)[tick] else 0
  {
    hide Builders.WellFormed, Audit.Keep;
    Audit.KeepContents(s.rate.table, s.now - window, tick);
  }

  // ---- how many steps a request takes ----

  /** The steps a handler may still take. */
  function StepsLeft(h: Handler): nat {
    match h
    case BuildBuilding(_) => 1
    case ApproveBuilding(_) => 3
    case ApproveSimulating(_, _) => 2
    case ApprovePrompting(_, _, _) => 1
    case SignBuilding(_, _) => 4
    case SignEstimating(_) => 3
    case SignSigning(_, _, _) => 2
    case SignBroadcasting(_) => 1
  }

  function Left(handlers: map<nat, Handler>, pid: nat): nat {
    if pid in handlers then StepsLeft(handlers[pid]) else 0
  }

  lemma PutLeft(handlers: map<nat, Handler>, pid: nat, next: Option<Handler>)
    requires pid in handlers && (next.Some? ==> StepsLeft(next.value) < StepsLeft(handlers[pid]))
    ensures Left(Put(handlers, pid, next), pid) < Left(handlers, pid)
  {
    hide Builders.WellFormed, StepsLeft;
    OneLeft(handlers[pid]);
  }

  lemma OneLeft(h: Handler)
    ensures StepsLeft(h) >= 1
  {
  }

  lemma AuthorizeLeft(s: State, job: Job, extras: Option<Extras>)
    ensures var next := AuthorizeNext(s, job, extras); next.Some? ==> StepsLeft(next.value) == 2
  {
    hide Builders.WellFormed;
  }

  lemma SignPlanLeft(c: Config, s: State, i: ValidIntent, offered: Option<string>,
                     client: Option<Builders.OneInchReply>, plan: BuildPlan)
    ensures var next := SignPlanNext(c, s, i, offered, client, plan); next.Some? ==> StepsLeft(next.value) < 4
  {
    hide Builders.WellFormed, AuthorizeNext, Stops, Charge, NewJob;
    var t, job := Charge(c, s, i, None), NewJob(c, s, i, offered, client, plan);
    AuthorizeLeft(t, job, None);
  }

  lemma PlanLeft(c: Config, s: State, pid: nat, h: Handler, client: Option<Builders.OneInchReply>, plan: BuildPlan,
                 newId: string)
    requires pid in s.handlers && s.handlers[pid] == h && (h.BuildBuilding? || h.ApproveBuilding? || h.SignBuilding?)
    ensures Left(OnPlan(c, s, pid, h, client, plan, newId).handlers, pid) < Left(s.handlers, pid)
  {
    hide Builders.WellFormed, OnRiskKnown, OnSignPlan, SignPlanNext, Left, Decision;
    match h
    case BuildBuilding(_) => PutLeft(s.handlers, pid, None);
    case ApproveBuilding(i) =>
      if c.rpc(i.chainId) {
        PutLeft(s.handlers, pid, Some(ApproveSimulating(i, plan)));
      } else {
        RiskKnownFrame(c, s, pid, i, plan, 0, newId);
        PutLeft(s.handlers, pid, RiskKnownNext(c, s, i, plan, 0, newId));
      }
    case SignBuilding(i, offered) =>
      SignPlanFrame(c, s, pid, i, offered, client, plan);
      SignPlanLeft(c, s, i, offered, client, plan);
      PutLeft(s.handlers, pid, SignPlanNext(c, s, i, offered, client, plan));
  }

  lemma BuiltLeft(c: Config, s: State, pid: nat, h: Handler, client: Option<Builders.OneInchReply>, newId: string)
    requires pid in s.handlers && s.handlers[pid] == h && (h.BuildBuilding? || h.ApproveBuilding? || h.SignBuilding?)
    ensures Left(OnBuilt(c, s, pid, h, client, newId).handlers, pid) < Left(s.handlers, pid)
  {
    hide Builders.WellFormed, Builders.BuildFromIntent, OnPlan, Left;
    match Builders.BuildFromIntent(c.keccak, h.intent, client)
    case Err(_) => PutLeft(s.handlers, pid, None);
    case Ok(plan) => PlanLeft(c, s, pid, h, client, plan, newId);
  }

  lemma GateLeft(c: Config, s: State, l: Label)
    requires Act(c, s, l).Some? && (l.Built? || l.Estimated?)
    ensures Left(Act(c, s, l).value.handlers, l.pid) < Left(s.handlers, l.pid)
  {
    hide Builders.WellFormed, OnBuilt, OnAuthorize, AuthorizeNext, Left;
    match l
    case Built(pid, client, newId) => BuiltLeft(c, s, pid, s.handlers[pid], client, newId);
    case Estimated(pid, extras) =>
      AuthorizeFrame(s, pid, s.handlers[pid].job, extras);
      AuthorizeLeft(s, s.handlers[pid].job, extras);
      PutLeft(s.handlers, pid, AuthorizeNext(s, s.handlers[pid].job, extras));
  }

  lemma SimulatedLeft(c: Config, s: State, pid: nat, risk: Option<nat>, newId: string)
    requires Act(c, s, Simulated(pid, risk, newId)).Some?
    ensures Left(Act(c, s, Simulated(pid, risk, newId)).value.handlers, pid) < Left(s.handlers, pid)
  {
    hide Builders.WellFormed, OnRiskKnown, Left, Decision;
    PutLeft(s.handlers, pid, None);
    if risk.Some? {
      var h := s.handlers[pid];
      RiskKnownFrame(c, s, pid, h.intent, h.plan, risk.value, newId);
      PutLeft(s.handlers, pid, RiskKnownNext(c, s, h.intent, h.plan, risk.value, newId));
    } else {}
  }

  lemma EndLeft(c: Config, s: State, l: Label)
    requires Act(c, s, l).Some? && (l.PromptSettled? || l.SigningReturned? || l.Sent?)
    ensures Left(Act(c, s, l).value.handlers, l.pid) < Left(s.handlers, l.pid)
  {
    hide Builders.WellFormed, OnSigned, Signable, Left;
    PutLeft(s.handlers, l.pid, None);
    match l
    case PromptSettled(pid, _) => if s.settled[s.handlers[pid].request] {} else {}
    case SigningReturned(pid, ok) => if ok { SignedLeft(c, s, pid, s.handlers[pid]); } else {}
    case Sent(_) =>
  }

  lemma SignedLeft(c: Config, s: State, pid: nat, h: Handler)
    requires pid in s.handlers && s.handlers[pid] == h && h.SignSigning?
    ensures Left(OnSigned(c, s, pid, h).handlers, pid) < Left(s.handlers, pid)
  {
    hide Builders.WellFormed, Left;
    PutLeft(s.handlers, pid, None);
    PutLeft(s.handlers, pid, Some(SignBroadcasting(h.job.intent)));
    if c.rpc(h.job.intent.chainId) {} else {}
  }

  /** A step of its own brings a handler closer to its end. */
  lemma OwnStepsDecrease(c: Config, s: State, l: Label, pid: nat)
    requires Act(c, s, l).Some? && Drives(l, pid)
    ensures Left(Act(c, s, l).value.handlers, pid) < Left(s.handlers, pid)
  {
    hide Act, Left, Builders.WellFormed;
    if l.Built? || l.Estimated? {
      GateLeft(c, s, l);
    } else if l.Simulated? {
      SimulatedLeft(c, s, pid, l.riskScore, l.freshRequest);
    } else {
      EndLeft(c, s, l);
    }
  }

  /** How many labels of the run move the handler. */
  function Taken(run: seq<Label>, pid: nat): nat {
    if run == [] then 0 else Taken(run[..|run| - 1], pid) + if Drives(run[|run| - 1], pid) then 1 else 0
  }

  /** Handlers there are have their numbers from the counter. */
  lemma PidsAreUsed(c: Config, s: State)
    requires Inv(c, s)
    ensures forall p :: p in s.handlers ==> p < s.nextPid
  {
    hide PendingOk, AnswersOk, SettledOk, PromptsOk, IssuesOk, TokensOk, SpendingsOk, SignaturesOk, HandlersOk;
    hide HistoryOk;
  }

  /** The steps of others: a handler stays as it is, or a restart ends it, or it is a newcomer. */
  lemma OthersLeave(c: Config, s: State, l: Label, pid: nat)
    requires Inv(c, s) && Act(c, s, l).Some? && !Drives(l, pid)
    ensures pid < s.nextPid ==> Left(Act(c, s, l).value.handlers, pid) <= Left(s.handlers, pid)
    ensures pid < s.nextPid && (pid !in s.handlers || l.Restart?) ==> Left(Act(c, s, l).value.handlers, pid) == 0
    ensures Left(Act(c, s, l).value.handlers, pid) <= 4 && s.nextPid <= Act(c, s, l).value.nextPid
  {
    hide Act, Builders.WellFormed, Inv, StepsLeft;
    PidsAreUsed(c, s);
    AtMostFour(Act(c, s, l).value.handlers, pid);
    PidsGrow(c, s, l);
    if l.Restart? {
      RestartFrame(c, s);
    } else if pid < s.nextPid {
      if pid in s.handlers { HandlerStays(c, s, l, pid); } else { GoneStaysGone(c, s, l, pid); }
    }
  }

  lemma AtMostFour(handlers: map<nat, Handler>, pid: nat)
    ensures Left(handlers, pid) <= 4
  {
  }

  lemma RestartFrame(c: Config, s: State)
    ensures Act(c, s, Restart) == Some(s.(handlers := map[], pending := map[], settled := map[], unlocked := map[]))
  {
    hide Builders.WellFormed;
  }

  ghost predicate OnlyOldOr(before: map<nat, Handler>, after: map<nat, Handler>, pid: nat) {
    forall q :: q in after ==> q in before || q == pid
  }

  lemma PutOnlyOld(handlers: map<nat, Handler>, pid: nat, next: Option<Handler>)
    ensures OnlyOldOr(handlers, Put(handlers, pid, next), pid)
  {
    hide Builders.WellFormed;
  }

  lemma PidsGrow(c: Config, s: State, l: Label)
    requires Act(c, s, l).Some?
    ensures s.nextPid <= Act(c, s, l).value.nextPid
  {
    hide Act, Builders.WellFormed, OnlyMoves, PromptAdded;
    if l.ReceiveBuild? || l.ReceiveApprove? || l.ReceiveSign? {
      NewcomerMoves(c, s, l);
    } else if l.Built? || l.Simulated? || l.Estimated? {
      DriverMoves(c, s, l);
    } else if l.PromptSettled? || l.SigningReturned? || l.Sent? {
      EndMoves(c, s, l);
    } else {
      EnvironmentFrame(c, s, l);
    }
  }

  /** Only newcomers are added, under the next number. */
  lemma GoneStaysGone(c: Config, s: State, l: Label, pid: nat)
    requires Act(c, s, l).Some? && !Drives(l, pid) && pid !in s.handlers && pid < s.nextPid
    ensures pid !in Act(c, s, l).value.handlers
  {
    hide Act, Builders.WellFormed;
    if Environment(l) {
      if l.Restart? { RestartFrame(c, s); } else { BystanderMoves(c, s, l); }
    } else if l.ReceiveBuild? || l.ReceiveApprove? || l.ReceiveSign? {
      NewcomersAreNew(c, s, l);
    } else {
      DriversAddNone(c, s, l, l.pid);
    }
  }

  lemma NewcomersAreNew(c: Config, s: State, l: Label)
    requires Act(c, s, l).Some? && (l.ReceiveBuild? || l.ReceiveApprove? || l.ReceiveSign?)
    ensures OnlyOldOr(s.handlers, Act(c, s, l).value.handlers, s.nextPid)
  {
    hide Builders.WellFormed, Decision;
    match l
    case ReceiveBuild(i) => if Decision(c, s, i, None) == Policy.Deny {} else {}
    case ReceiveApprove(_) =>
    case ReceiveSign(_, _) =>
  }

  lemma DriversAddNone(c: Config, s: State, l: Label, driven: nat)
    requires Act(c, s, l).Some? && Drives(l, driven)
    ensures OnlyOldOr(s.handlers, Act(c, s, l).value.handlers, driven)
  {
    hide Builders.WellFormed, OnBuilt, OnRiskKnown, OnAuthorize, OnSigned, OnlyOldOr, Signable;
    PutOnlyOld(s.handlers, driven, None);
    match l
    case Built(pid, client, newId) => BuiltAddsNone(c, s, pid, s.handlers[pid], client, newId);
    case Simulated(pid, risk, newId) =>
      if risk.Some? {
        var h := s.handlers[pid];
        RiskKnownFrame(c, s, pid, h.intent, h.plan, risk.value, newId);
        PutOnlyOld(s.handlers, pid, RiskKnownNext(c, s, h.intent, h.plan, risk.value, newId));
      } else {}
    case Estimated(pid, extras) =>
      AuthorizeFrame(s, pid, s.handlers[pid].job, extras);
      PutOnlyOld(s.handlers, pid, AuthorizeNext(s, s.handlers[pid].job, extras));
    case _ => EndersAddNone(c, s, l);
  }

  lemma EndersAddNone(c: Config, s: State, l: Label)
    requires Act(c, s, l).Some? && (l.PromptSettled? || l.SigningReturned? || l.Sent?)
    ensures OnlyOldOr(s.handlers, Act(c, s, l).value.handlers, l.pid)
  {
    hide Builders.WellFormed, OnSigned, OnlyOldOr, Signable;
    PutOnlyOld(s.handlers, l.pid, None);
    match l
    case PromptSettled(pid, _) => if s.settled[s.handlers[pid].request] {} else {}
    case SigningReturned(pid, ok) => if ok { SignedAddsNone(c, s, pid, s.handlers[pid]); } else {}
    case Sent(_) =>
  }

  lemma SignedAddsNone(c: Config, s: State, pid: nat, h: Handler)
    requires h.SignSigning?
    ensures OnlyOldOr(s.handlers, OnSigned(c, s, pid, h).handlers, pid)
  {
    hide Builders.WellFormed, OnlyOldOr;
    PutOnlyOld(s.handlers, pid, None);
    PutOnlyOld(s.handlers, pid, Some(SignBroadcasting(h.job.intent)));
    if c.rpc(h.job.intent.chainId) {} else {}
  }

  lemma PlanAddsNone(c: Config, s: State, pid: nat, h: Handler, client: Option<Builders.OneInchReply>, plan: BuildPlan,
                     newId: string)
    requires h.BuildBuilding? || h.ApproveBuilding? || h.SignBuilding?
    ensures OnlyOldOr(s.handlers, OnPlan(c, s, pid, h, client, plan, newId).handlers, pid)
  {
    hide Builders.WellFormed, OnRiskKnown, OnSignPlan, SignPlanNext, OnlyOldOr, Decision;
    match h
    case BuildBuilding(_) => PutOnlyOld(s.handlers, pid, None);
    case ApproveBuilding(i) =>
      if c.rpc(i.chainId) {
        PutOnlyOld(s.handlers, pid, Some(ApproveSimulating(i, plan)));
      } else {
        RiskKnownFrame(c, s, pid, i, plan, 0, newId);
        PutOnlyOld(s.handlers, pid, RiskKnownNext(c, s, i, plan, 0, newId));
      }
    case SignBuilding(i, offered) =>
      SignPlanFrame(c, s, pid, i, offered, client, plan);
      PutOnlyOld(s.handlers, pid, SignPlanNext(c, s, i, offered, client, plan));
  }

  lemma BuiltAddsNone(c: Config, s: State, pid: nat, h: Handler, client: Option<Builders.OneInchReply>, newId: string)
    requires h.BuildBuilding? || h.ApproveBuilding? || h.SignBuilding?
    ensures OnlyOldOr(s.handlers, OnBuilt(c, s, pid, h, client, newId).handlers, pid)
  {
    hide Builders.WellFormed, Builders.BuildFromIntent, OnPlan, OnlyOldOr;
    match Builders.BuildFromIntent(c.keccak, h.intent, client)
    case Err(_) => PutOnlyOld(s.handlers, pid, None);
    case Ok(plan) => PlanAddsNone(c, s, pid, h, client, plan, newId);
  }

  lemma {:induction false} StepsAreBounded(c: Config, run: seq<Label>, pid: nat)
    requires Exec(c, run).Some?
    ensures var s := Exec(c, run).value;
      Taken(run, pid) + Left(s.handlers, pid) <= 4 && (pid >= s.nextPid ==> Taken(run, pid) == 0 && pid !in s.handlers)
  {
    hide Act, Left, Inv;
    if run == [] {
      assert Left(INIT.handlers, pid) == 0 by { NobodyIsThere(pid); }
    } else {
      var before, l := run[..|run| - 1], run[|run| - 1];
      var s := Exec(c, before).value;
      StepsAreBounded(c, before, pid);
      RunKeepsInv(c, before);
      RunKeepsInv(c, run);
      PidsAreUsed(c, Exec(c, run).value);
      if Drives(l, pid) {
        OwnStepsDecrease(c, s, l, pid);
        DriverIsThere(c, s, l, pid);
        PidsAreUsed(c, s);
        PidsGrow(c, s, l);
      } else {
        OthersLeave(c, s, l, pid);
      }
    }
  }

  lemma NobodyIsThere(pid: nat)
    ensures Left(INIT.handlers, pid) == 0
  {
  }

  lemma DriverIsThere(c: Config, s: State, l: Label, pid: nat)
    requires Act(c, s, l).Some? && Drives(l, pid)
    ensures pid in s.handlers
  {
    hide Builders.WellFormed;
  }

  /** In every run every request takes at most four steps of its own. */
  lemma RequestsTakeFourSteps(c: Config, run: seq<Label>, pid: nat)
    requires Exec(c, run).Some?
    ensures Taken(run, pid) <= 4
  {
    hide Exec, Left;
    StepsAreBounded(c, run, pid);
  }

  /** What the signing call leads to: when it fails the request ends without a signature; when it
      succeeds there is one more, and the request goes on to broadcast it exactly where there is a
      client for the chain, which ends it. */
  lemma SignedIsBroadcastIff(c: Config, s: State, pid: nat, ok: bool)
    requires Step(c, s, SigningReturned(pid, ok)).Some?
    ensures pid in s.handlers && s.handlers[pid].SignSigning?
    ensures var h, t := s.handlers[pid], Step(c, s, SigningReturned(pid, ok)).value;
      (pid in t.handlers <==> ok && c.rpc(h.job.intent.chainId)) &&
      t.signatures == s.signatures + (if ok then [Signature(pid, h.job, h.extras, h.key, s.step)] else []) &&
      (pid in t.handlers ==> Step(c, t, Sent(pid)).Some? && pid !in Step(c, t, Sent(pid)).value.handlers)
  {
    hide Builders.WellFormed, Signable;
    if ok {
      if c.rpc(s.handlers[pid].job.intent.chainId) {} else {}
    } else {
      assert s.signatures + [] == s.signatures;
    }
  }

  // ---- a restart ----

  lemma {:induction false} NoMoreSteps(c: Config, run: seq<Label>, more: seq<Label>, pid: nat)
    requires Exec(c, run).Some? && Exec(c, run + more).Some?
    requires pid < Exec(c, run).value.nextPid && pid !in Exec(c, run).value.handlers
    ensures pid < Exec(c, run + more).value.nextPid && pid !in Exec(c, run + more).value.handlers
    ensures forall k :: 0 <= k < |more| ==> !Drives(more[k], pid)
    decreases |more|
  {
    hide Act;
    if more == [] {
      assert run + more == run;
    } else {
      var n := |more| - 1;
      assert (run + more)[..|run + more| - 1] == run + more[..n];
      NoMoreSteps(c, run, more[..n], pid);
      var s := Exec(c, run + more[..n]).value;
      PidsGrow(c, s, more[n]);
      if Drives(more[n], pid) {
        DriverIsThere(c, s, more[n], pid);
      } else {
        GoneStaysGone(c, s, more[n], pid);
      }
    }
  }

  /** In every run a restart ends every request in flight: none of them takes another step.  The
      databases stay as they are. */
  lemma RestartEndsRequests(c: Config, run: seq<Label>, more: seq<Label>, pid: nat)
    requires Exec(c, run).Some? && Exec(c, run + [Restart] + more).Some? && pid < Exec(c, run).value.nextPid
    ensures forall k :: 0 <= k < |more| ==> !Drives(more[k], pid)
    ensures var s, t := Exec(c, run).value, Exec(c, run + [Restart]).value;
      t.handlers == map[] && t.pending == map[] && t.unlocked == map[] && t.tokens == s.tokens && t.rate == s.rate
  {
    hide Exec;
    Accounting.ExecNext(c, run, Restart);
    RestartFrame(c, Exec(c, run).value);
    NoMoreSteps(c, run + [Restart], more, pid);
  }
}
