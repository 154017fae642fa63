/** What each piece of handler code touches, and nothing else. */
module Frames {
  import opened Types
  import opened Protocol
  import Policy
  import Tokens
  import Pending
  import Builders
  import Wallet

  /** The handler table once pid has ended or suspended again. */
  function Put(handlers: map<nat, Handler>, pid: nat, next: Option<Handler>): map<nat, Handler> {
    match next
    case None => handlers - {pid}
    case Some(h) => handlers[pid := h]
  }

  lemma ChargeFrame(c: Config, s: State, i: Intent, risk: Option<int>)
    ensures Charge(c, s, i, risk) == s.(rate := Charge(c, s, i, risk).rate)
  {
    hide Decision;
    if Decision(c, s, i, risk) == Policy.Deny {} else {}
  }

  function AuthorizeNext(s: State, job: Job, extras: Option<Extras>): Option<Handler> {
    var q := Wallet.SignRequest(job.intent.id, job.intent.wallet, job.plan.txRequestHash, Some(job.verdict), job.token);
    match Wallet.Gate(s.tokens, s.unlocked, q, s.now)
    case Err(_) => None
    case Ok(key) => Some(SignSigning(job, extras, key))
  }

  lemma AuthorizeFrame(s: State, pid: nat, job: Job, extras: Option<Extras>)
    ensures var t := OnAuthorize(s, pid, job, extras);
      t == s.(handlers := Put(s.handlers, pid, AuthorizeNext(s, job, extras)), tokens := t.tokens,
              spendings := t.spendings)
  {
    hide Wallet.Gate, Wallet.TokensAfter, Wallet.SpendsToken, Builders.WellFormed;
    var q := Wallet.SignRequest(job.intent.id, job.intent.wallet, job.plan.txRequestHash, Some(job.verdict), job.token);
    match Wallet.Gate(s.tokens, s.unlocked, q, s.now)
    case Err(_) =>
    case Ok(_) =>
  }

  lemma AuthorizeTables(s: State, pid: nat, job: Job, extras: Option<Extras>)
    ensures var q := Wallet.SignRequest(job.intent.id, job.intent.wallet, job.plan.txRequestHash, Some(job.verdict),
                                        job.token);
      var spends := Wallet.SpendsToken(s.tokens, q, s.now);
      OnAuthorize(s, pid, job, extras).tokens ==
        (if spends then Tokens.Consume(s.tokens, job.token.value) else s.tokens) &&
      OnAuthorize(s, pid, job, extras).spendings ==
        if spends then s.spendings[job.token.value := Spending(pid, s.now, s.step)] else s.spendings
  {
    hide Wallet.Gate, Tokens.Validate, Tokens.Consume, Builders.WellFormed;
    var q := Wallet.SignRequest(job.intent.id, job.intent.wallet, job.plan.txRequestHash, Some(job.verdict), job.token);
    match Wallet.Gate(s.tokens, s.unlocked, q, s.now)
    case Err(_) =>
    case Ok(_) =>
  }

  function RiskKnownNext(c: Config, s: State, i: ValidIntent, plan: BuildPlan, risk: nat, newId: string)
    : Option<Handler>
  {
    if Decision(c, s, i, Some(risk)) != Policy.RequireApproval then None else Some(ApprovePrompting(i, plan, newId))
  }

  lemma RiskKnownFrame(c: Config, s: State, pid: nat, i: ValidIntent, plan: BuildPlan, risk: nat, newId: string)
    ensures var t := OnRiskKnown(c, s, pid, i, plan, risk, newId);
      t == s.(handlers := Put(s.handlers, pid, RiskKnownNext(c, s, i, plan, risk, newId)),
              rate := Charge(c, s, i, Some(risk)).rate, prompts := t.prompts, pending := t.pending)
  {
    hide Charge, Decision, Builders.WellFormed;
    ChargeFrame(c, s, i, Some(risk));
    if Decision(c, s, i, Some(risk)) == Policy.RequireApproval {
      if c.web {} else {}
    } else {}
  }

  /** newId names a prompt of this very step, and no other prompt changes. */
  ghost predicate PromptAdded(s: State, prompts: map<string, Prompt>, pid: nat, newId: string) {
    newId in prompts && prompts[newId].pid == pid && prompts[newId].at == s.now && prompts[newId].step == s.step &&
    prompts == s.prompts[newId := prompts[newId]]
  }

  lemma RiskKnownPrompts(c: Config, s: State, pid: nat, i: ValidIntent, plan: BuildPlan, risk: nat, newId: string)
    ensures var t := OnRiskKnown(c, s, pid, i, plan, risk, newId);
      t.prompts == s.prompts || PromptAdded(s, t.prompts, pid, newId)
  {
    hide Charge, Decision, Builders.WellFormed;
    ChargeFrame(c, s, i, Some(risk));
    if Decision(c, s, i, Some(risk)) == Policy.RequireApproval {} else {}
  }

  function ProceedNext(c: Config, s: State, job: Job): Option<Handler> {
    if c.rpc(job.intent.chainId) then Some(SignEstimating(job)) else AuthorizeNext(s, job, None)
  }

  lemma ProceedFrame(c: Config, s: State, pid: nat, job: Job)
    ensures var t := Proceed(c, s, pid, job);
      t == s.(handlers := Put(s.handlers, pid, ProceedNext(c, s, job)), tokens := t.tokens, spendings := t.spendings)
  {
    hide OnAuthorize, AuthorizeNext, Builders.WellFormed;
    if c.rpc(job.intent.chainId) {} else { AuthorizeFrame(s, pid, job, None); }
  }

  function SignPlanNext(c: Config, s: State, i: ValidIntent, offered: Option<string>,
                        client: Option<Builders.OneInchReply>, plan: BuildPlan): Option<Handler> {
    if Stops(c, s, i, offered, plan) then None
    else ProceedNext(c, Charge(c, s, i, None), NewJob(c, s, i, offered, client, plan))
  }

  lemma SignPlanFrame(c: Config, s: State, pid: nat, i: ValidIntent, offered: Option<string>,
                      client: Option<Builders.OneInchReply>, plan: BuildPlan)
    ensures var t := OnSignPlan(c, s, pid, i, offered, client, plan);
      t == s.(handlers := Put(s.handlers, pid, SignPlanNext(c, s, i, offered, client, plan)),
              rate := Charge(c, s, i, None).rate, tokens := t.tokens, spendings := t.spendings)
  {
    hide Charge, Stops, NewJob, Proceed, ProceedNext, Builders.WellFormed;
    ChargeFrame(c, s, i, None);
    if Stops(c, s, i, offered, plan) {} else {
      ProceedFrame(c, Charge(c, s, i, None), pid, NewJob(c, s, i, offered, client, plan));
    }
  }

  lemma ReceiveBuildFrame(c: Config, s: State, i: ValidIntent)
    ensures var t := OnReceiveBuild(c, s, i);
      t == s.(handlers := if Decision(c, s, i, None) == Policy.Deny then s.handlers
                          else Put(s.handlers, s.nextPid, Some(BuildBuilding(i))),
              rate := Charge(c, s, i, None).rate, nextPid := t.nextPid)
  {
    hide Decision, Builders.WellFormed;
    ChargeFrame(c, s, i, None);
  }

  // ---- whole steps ----

  predicate Environment(l: Label) {
    l.Advance? || l.TokenCleanup? || l.PendingCleanup? || l.RateCleanup? || l.WebDecide? || l.PromptAnswered? ||
    l.ClosePending? || l.KeyUnlocked? || l.KeyLocked? || l.Restart?
  }

  lemma EnvironmentFrame(c: Config, s: State, l: Label)
    requires Act(c, s, l).Some? && Environment(l)
    ensures var t := Act(c, s, l).value;
      t == t.(step := s.step, nextPid := s.nextPid, prompts := s.prompts, issues := s.issues,
              spendings := s.spendings, signatures := s.signatures)
    ensures l.WebDecide? || l.PromptAnswered? || Act(c, s, l).value.answers == s.answers
    ensures l.RateCleanup? || Act(c, s, l).value.rate == s.rate
    ensures l.Advance? || Act(c, s, l).value.now == s.now
  {
    hide Act, Builders.WellFormed;
    if l.WebDecide? || l.PromptAnswered? { ReplyFrame(c, s, l); } else { WorldFrame(c, s, l); }
  }

  lemma WebDecided(c: Config, s: State, r: string, approved: bool)
    ensures Act(c, s, WebDecide(r, approved)).Some?
    ensures var t := Act(c, s, WebDecide(r, approved)).value;
      t.pending == Pending.Decide(s.pending, r) &&
      t.settled == if Pending.DecideSucceeds(s.pending, r, s.now, c.ttlMs) then s.settled[r := approved] else s.settled
  {
    hide Pending.DecideSucceeds, Pending.Decide, Builders.WellFormed;
    if Pending.DecideSucceeds(s.pending, r, s.now, c.ttlMs) {} else {}
  }

  lemma TerminalAnswered(c: Config, s: State, r: string, approved: bool)
    requires Act(c, s, PromptAnswered(r, approved)).Some?
    ensures r !in s.settled
    ensures var t := Act(c, s, PromptAnswered(r, approved)).value;
      t.pending == s.pending && t.settled == s.settled[r := approved]
  {
    hide Waiting, Builders.WellFormed;
  }

  lemma ReplyFrame(c: Config, s: State, l: Label)
    requires Act(c, s, l).Some? && (l.WebDecide? || l.PromptAnswered?)
    ensures var t := Act(c, s, l).value; t == s.(pending := t.pending, answers := t.answers, settled := t.settled)
  {
    hide Pending.DecideSucceeds, Waiting, Pending.Decide, Builders.WellFormed;
    match l
    case WebDecide(r, _) => if Pending.DecideSucceeds(s.pending, r, s.now, c.ttlMs) {} else {}
    case PromptAnswered(_, _) =>
  }

  /** Labels that settle prompts nobody answered, or forget them. */
  predicate Settles(l: Label) { l.PendingCleanup? || l.ClosePending? || l.Restart? }

  /** The clock, the cleaners, the keys, closing and restarting. */
  lemma WorldFrame(c: Config, s: State, l: Label)
    requires Act(c, s, l).Some? && Environment(l) && !l.WebDecide? && !l.PromptAnswered?
    ensures var t := Act(c, s, l).value;
      t == s.(now := if l.Advance? then t.now else s.now, rate := if l.RateCleanup? then t.rate else s.rate,
              tokens := if l.TokenCleanup? then t.tokens else s.tokens,
              pending := if Settles(l) then t.pending else s.pending,
              settled := if Settles(l) then t.settled else s.settled,
              unlocked := t.unlocked, handlers := if l.Restart? then map[] else s.handlers)
  {
    hide Tokens.Cleanup, Pending.Cleanup, Builders.WellFormed;
    match l
    case Advance(_) =>
    case TokenCleanup =>
    case PendingCleanup =>
    case RateCleanup(_) =>
    case ClosePending =>
    case KeyUnlocked(_, _) =>
    case KeyLocked(_) =>
    case Restart =>
  }

  lemma AdvanceFrame(c: Config, s: State, ms: nat)
    ensures Act(c, s, Advance(ms)) == Some(s.(now := s.now + ms))
  {
    hide Builders.WellFormed;
  }

  lemma PlanFrame(c: Config, s: State, pid: nat, h: Handler, client: Option<Builders.OneInchReply>, plan: BuildPlan,
                  newId: string)
    requires h.BuildBuilding? || h.ApproveBuilding? || h.SignBuilding?
    ensures var t := OnPlan(c, s, pid, h, client, plan, newId);
      t == s.(handlers := t.handlers, rate := t.rate, prompts := t.prompts, pending := t.pending, tokens := t.tokens,
              spendings := t.spendings)
  {
    hide Builders.WellFormed, OnRiskKnown, OnSignPlan, Charge;
    match h
    case BuildBuilding(_) =>
    case ApproveBuilding(i) => if c.rpc(i.chainId) {} else { RiskKnownFrame(c, s, pid, i, plan, 0, newId); }
    case SignBuilding(i, offered) => SignPlanFrame(c, s, pid, i, offered, client, plan);
  }

  lemma PlanPrompts(c: Config, s: State, pid: nat, h: Handler, client: Option<Builders.OneInchReply>, plan: BuildPlan,
                    newId: string)
    requires h.BuildBuilding? || h.ApproveBuilding? || h.SignBuilding?
    ensures var t := OnPlan(c, s, pid, h, client, plan, newId);
      t.prompts == s.prompts || PromptAdded(s, t.prompts, pid, newId)
  {
    hide Builders.WellFormed, OnRiskKnown, OnSignPlan, PromptAdded, Charge;
    match h
    case BuildBuilding(_) =>
    case ApproveBuilding(i) => if c.rpc(i.chainId) {} else { RiskKnownPrompts(c, s, pid, i, plan, 0, newId); }
    case SignBuilding(i, offered) => SignPlanFrame(c, s, pid, i, offered, client, plan);
  }

  lemma FinishFrame(s: State, pid: nat)
    ensures Finish(s, pid) == s.(handlers := Finish(s, pid).handlers)
  {
    hide Builders.WellFormed;
  }

  lemma BuiltFrame(c: Config, s: State, pid: nat, h: Handler, client: Option<Builders.OneInchReply>, newId: string)
    requires h.BuildBuilding? || h.ApproveBuilding? || h.SignBuilding?
    ensures var t := OnBuilt(c, s, pid, h, client, newId);
      t == s.(handlers := t.handlers, rate := t.rate, prompts := t.prompts, pending := t.pending, tokens := t.tokens,
              spendings := t.spendings)
    ensures var t := OnBuilt(c, s, pid, h, client, newId);
      t.prompts == s.prompts || PromptAdded(s, t.prompts, pid, newId)
  {
    hide Builders.WellFormed, Builders.BuildFromIntent, OnPlan, PromptAdded;
    FinishFrame(s, pid);
    match Builders.BuildFromIntent(c.keccak, h.intent, client)
    case Err(_) =>
    case Ok(plan) =>
      PlanFrame(c, s, pid, h, client, plan, newId);
      PlanPrompts(c, s, pid, h, client, plan, newId);
  }

  lemma BuiltStepFrame(c: Config, s: State, l: Label)
    requires Act(c, s, l).Some? && l.Built?
    ensures var t := Act(c, s, l).value;
      t == s.(handlers := t.handlers, rate := t.rate, prompts := t.prompts, pending := t.pending, tokens := t.tokens,
              spendings := t.spendings) &&
      (t.prompts == s.prompts || PromptAdded(s, t.prompts, l.pid, l.freshRequest))
  {
    hide OnBuilt, Builders.WellFormed;
    BuiltFrame(c, s, l.pid, s.handlers[l.pid], l.client, l.freshRequest);
  }

  lemma SimulatedFrame(c: Config, s: State, pid: nat, risk: Option<nat>, newId: string)
    requires Act(c, s, Simulated(pid, risk, newId)).Some?
    ensures var t := Act(c, s, Simulated(pid, risk, newId)).value;
      t == s.(handlers := t.handlers, rate := t.rate, prompts := t.prompts, pending := t.pending) &&
      (t.prompts == s.prompts || PromptAdded(s, t.prompts, pid, newId))
  {
    hide OnRiskKnown, Builders.WellFormed;
    if risk.Some? {
      RiskKnownFrame(c, s, pid, s.handlers[pid].intent, s.handlers[pid].plan, risk.value, newId);
      RiskKnownPrompts(c, s, pid, s.handlers[pid].intent, s.handlers[pid].plan, risk.value, newId);
    } else {}
  }

  lemma WorkFrame(c: Config, s: State, l: Label)
    requires Act(c, s, l).Some? && (l.ReceiveBuild? || l.ReceiveApprove? || l.ReceiveSign? || l.Estimated? || l.Sent?)
    ensures var t := Act(c, s, l).value;
      t == s.(handlers := t.handlers, nextPid := t.nextPid, rate := if l.ReceiveBuild? then t.rate else s.rate,
              tokens := if l.Estimated? then t.tokens else s.tokens,
              spendings := if l.Estimated? then t.spendings else s.spendings)
  {
    hide OnAuthorize, OnReceiveBuild, Builders.WellFormed;
    match l
    case ReceiveBuild(i) => ReceiveBuildFrame(c, s, i);
    case Estimated(pid, extras) => AuthorizeFrame(s, pid, s.handlers[pid].job, extras);
    case _ =>
  }

  lemma IssueFrame(c: Config, s: State, pid: nat, newId: string)
    requires Act(c, s, PromptSettled(pid, newId)).Some?
    ensures var t := Act(c, s, PromptSettled(pid, newId)).value;
      t == s.(handlers := t.handlers, tokens := t.tokens, issues := t.issues) &&
      (t.issues == s.issues ||
       (newId in t.issues && t.issues == s.issues[newId := t.issues[newId]] && t.issues[newId].at == s.now &&
        t.issues[newId].step == s.step))
  {
    hide Builders.WellFormed;
    if s.settled[s.handlers[pid].request] {} else {}
  }

  lemma SignatureFrame(c: Config, s: State, pid: nat, ok: bool)
    requires Act(c, s, SigningReturned(pid, ok)).Some?
    ensures var t := Act(c, s, SigningReturned(pid, ok)).value;
      t == s.(handlers := t.handlers, signatures := t.signatures) &&
      t.signatures == s.signatures +
        if ok then [Signature(pid, s.handlers[pid].job, s.handlers[pid].extras, s.handlers[pid].key, s.step)] else []
  {
    hide Builders.WellFormed;
    if ok {} else { assert s.signatures + [] == s.signatures; }
  }

  lemma NewNames(c: Config, s: State, l: Label)
    requires Act(c, s, l).Some?
    ensures l.Built? || l.Simulated? ==> l.freshRequest !in s.prompts
    ensures l.PromptSettled? ==> l.freshToken !in s.issues
  {
    hide OnBuilt, OnRiskKnown, OnPromptSettled, Builders.WellFormed;
  }

  /** The time a step takes. */
  function Lapse(l: Label): nat {
    match l
    case Advance(ms) => ms
    case _ => 0
  }

  lemma HandlersTakeNoTime(c: Config, s: State, l: Label)
    requires Act(c, s, l).Some? && (l.Built? || l.Simulated? || l.PromptSettled? || l.SigningReturned?)
    ensures Act(c, s, l).value.now == s.now && Act(c, s, l).value.step == s.step
  {
    hide Act, Builders.WellFormed, PromptAdded;
    match l
    case Built(_, _, _) => BuiltStepFrame(c, s, l);
    case Simulated(pid, risk, newId) => SimulatedFrame(c, s, pid, risk, newId);
    case PromptSettled(pid, newId) => IssueFrame(c, s, pid, newId);
    case SigningReturned(pid, ok) => SignatureFrame(c, s, pid, ok);
  }

  lemma TimePasses(c: Config, s: State, l: Label)
    requires Act(c, s, l).Some?
    ensures Act(c, s, l).value.now == s.now + Lapse(l) && Act(c, s, l).value.step == s.step
  {
    hide Act, Builders.WellFormed;
    if l.Advance? {
      AdvanceFrame(c, s, l.ms);
    } else if l.Built? || l.Simulated? || l.PromptSettled? || l.SigningReturned? {
      HandlersTakeNoTime(c, s, l);
    } else if Environment(l) {
      EnvironmentFrame(c, s, l);
    } else {
      WorkFrame(c, s, l);
    }
  }
}
