/** What single steps and the labels of others do, from any state. */
module Moves {
  import opened Types
  import opened Protocol
  import opened Frames
  import opened Safety
  import opened History
  import Policy
  import Tokens
  import RateLimit
  import Pending
  import Builders

  /** The label answers or closes the prompt. */
  predicate Closes(l: Label, request: string) {
    match l
    case WebDecide(r, _) => r == request
    case PromptAnswered(r, _) => r == request
    case ClosePending => true
    case _ => false
  }

  // ---- single steps ----

  lemma ReceiveApproveStep(c: Config, s: State, i: ValidIntent)
    ensures Step(c, s, ReceiveApprove(i)) ==
      Some(s.(handlers := s.handlers[s.nextPid := ApproveBuilding(i)], nextPid := s.nextPid + 1, step := s.step + 1))
  {
    hide Builders.WellFormed;
  }

  lemma SimulateStep(c: Config, s: State, pid: nat, i: ValidIntent, client: Option<Builders.OneInchReply>,
                     plan: BuildPlan, r: string)
    requires pid in s.handlers && s.handlers[pid] == ApproveBuilding(i) && r !in s.prompts
    requires c.rpc(i.chainId) && Builders.BuildFromIntent(c.keccak, i, client) == Ok(plan)
    ensures Step(c, s, Built(pid, client, r)) ==
      Some(s.(handlers := s.handlers[pid := ApproveSimulating(i, plan)], step := s.step + 1))
  {
    hide Builders.WellFormed, Builders.BuildFromIntent;
  }

  /** The score approve-request sees: without a client there is no simulation and it is 0. */
  function ScoreSeen(c: Config, i: Intent, risk: nat): nat { if c.rpc(i.chainId) then risk else 0 }

  /** The fees a request is signed with: without a client for the chain none are looked up. */
  function FeesFound(c: Config, i: Intent, extras: Option<Extras>): Option<Extras> {
    if c.rpc(i.chainId) then extras else None
  }

  /** The state in which the prompt r is open. */
  function Asked(c: Config, s: State, pid: nat, i: ValidIntent, plan: BuildPlan, r: string): State {
    s.(handlers := s.handlers[pid := ApprovePrompting(i, plan, r)],
       rate := RateLimit.Record(s.rate, i.wallet, s.now),
       prompts := s.prompts[r := Prompt(pid, i.id, plan.tx, plan.txRequestHash, s.now, s.step)],
       pending := if c.web then Pending.Add(s.pending, r, Pending.Summary(i.id, plan.txRequestHash), s.now)
                  else s.pending,
       step := s.step + 1)
  }

  lemma AskAfterBuild(c: Config, s: State, pid: nat, i: ValidIntent, client: Option<Builders.OneInchReply>,
                      plan: BuildPlan, r: string)
    requires pid in s.handlers && s.handlers[pid] == ApproveBuilding(i) && r !in s.prompts
    requires !c.rpc(i.chainId) && Builders.BuildFromIntent(c.keccak, i, client) == Ok(plan)
    requires Decision(c, s, i, Some(0)) == Policy.RequireApproval
    ensures Step(c, s, Built(pid, client, r)) == Some(Asked(c, s, pid, i, plan, r))
  {
    hide Builders.WellFormed, Builders.BuildFromIntent, Decision, Pending.Add, RateLimit.Record;
  }

  lemma AskAfterSimulation(c: Config, s: State, pid: nat, i: ValidIntent, plan: BuildPlan, risk: nat, r: string)
    requires pid in s.handlers && s.handlers[pid] == ApproveSimulating(i, plan) && r !in s.prompts
    requires Decision(c, s, i, Some(risk)) == Policy.RequireApproval
    ensures Step(c, s, Simulated(pid, Some(risk), r)) == Some(Asked(c, s, pid, i, plan, r))
  {
    hide Builders.WellFormed, Decision, Pending.Add, RateLimit.Record;
  }

  /** The answer, on the web page or in the terminal. */
  function ReplyLabel(c: Config, r: string, approved: bool): Label {
    if c.web then WebDecide(r, approved) else PromptAnswered(r, approved)
  }

  predicate OpenPrompt(c: Config, s: State, r: string) {
    if c.web then Pending.DecideSucceeds(s.pending, r, s.now, c.ttlMs)
    else r !in s.pending && r !in s.settled && r !in s.answers && Waiting(s, r)
  }

  lemma ReplyStep(c: Config, s: State, r: string, approved: bool)
    requires OpenPrompt(c, s, r)
    ensures Step(c, s, ReplyLabel(c, r, approved)) ==
      Some(s.(pending := s.pending - {r}, answers := s.answers[r := Answer(approved, s.now, s.step)],
              settled := s.settled[r := approved], step := s.step + 1))
  {
    hide Builders.WellFormed, Waiting;
    if c.web {} else { assert s.pending - {r} == s.pending; }
  }

  lemma TokenStep(c: Config, s: State, pid: nat, i: ValidIntent, plan: BuildPlan, r: string, tok: string)
    requires pid in s.handlers && s.handlers[pid] == ApprovePrompting(i, plan, r)
    requires r in s.settled && s.settled[r] && tok !in s.issues
    ensures var issue := Issue(r, i.id, plan.txRequestHash, i.wallet, s.now, s.step);
      Step(c, s, PromptSettled(pid, tok)) ==
      Some(s.(handlers := s.handlers - {pid},
              tokens := Tokens.Issue(s.tokens, tok, i.id, plan.txRequestHash, APPROVAL_TTL_SECONDS, s.now),
              issues := s.issues[tok := issue], step := s.step + 1))
  {
    hide Builders.WellFormed;
  }

  lemma RefusedStep(c: Config, s: State, pid: nat, i: ValidIntent, plan: BuildPlan, r: string, tok: string)
    requires pid in s.handlers && s.handlers[pid] == ApprovePrompting(i, plan, r)
    requires r in s.settled && !s.settled[r] && tok !in s.issues
    ensures Step(c, s, PromptSettled(pid, tok)) == Some(s.(handlers := s.handlers - {pid}, step := s.step + 1))
  {
    hide Builders.WellFormed;
  }

  lemma ReceiveSignStep(c: Config, s: State, i: ValidIntent, offered: Option<string>)
    ensures Step(c, s, ReceiveSign(i, offered)) ==
      Some(s.(handlers := s.handlers[s.nextPid := SignBuilding(i, offered)], nextPid := s.nextPid + 1,
              step := s.step + 1))
  {
    hide Builders.WellFormed;
  }

  /** sign-and-send once the plan is built: on to the fees, or to the gates. */
  lemma SignPlanStep(c: Config, s: State, pid: nat, i: ValidIntent, offered: Option<string>,
                     client: Option<Builders.OneInchReply>, plan: BuildPlan, r: string)
    requires pid in s.handlers && s.handlers[pid] == SignBuilding(i, offered) && r !in s.prompts
    requires Builders.BuildFromIntent(c.keccak, i, client) == Ok(plan)
    ensures Step(c, s, Built(pid, client, r)).Some?
    ensures var t := Step(c, s, Built(pid, client, r)).value; var u := OnSignPlan(c, s, pid, i, offered, client, plan);
      t == u.(step := u.step + 1)
  {
    hide Builders.WellFormed, Builders.BuildFromIntent, OnSignPlan;
  }

  lemma EstimatedStep(c: Config, s: State, pid: nat, job: Job, extras: Option<Extras>)
    requires pid in s.handlers && s.handlers[pid] == SignEstimating(job)
    ensures Step(c, s, Estimated(pid, extras)).Some?
    ensures var t := Step(c, s, Estimated(pid, extras)).value; var u := OnAuthorize(s, pid, job, extras);
      t == u.(step := u.step + 1)
  {
    hide Builders.WellFormed, OnAuthorize;
  }

  lemma SignStep(c: Config, s: State, pid: nat)
    requires pid in s.handlers && s.handlers[pid].SignSigning?
    requires Signable(c.keccak, s.handlers[pid].job.plan.tx, s.handlers[pid].extras)
    ensures Step(c, s, SigningReturned(pid, true)).Some?
    ensures Step(c, s, SigningReturned(pid, true)).value.signatures ==
      s.signatures + [Signature(pid, s.handlers[pid].job, s.handlers[pid].extras, s.handlers[pid].key, s.step)]
  {
    hide Builders.WellFormed, Signable;
  }

  lemma UnsignableStep(c: Config, s: State, pid: nat)
    requires pid in s.handlers && s.handlers[pid].SignSigning?
    requires !Signable(c.keccak, s.handlers[pid].job.plan.tx, s.handlers[pid].extras)
    ensures Step(c, s, SigningReturned(pid, true)).None?
  {
    hide Builders.WellFormed, Signable;
  }

  lemma SameDecision(c: Config, s: State, t: State, i: Intent, risk: Option<int>)
    requires t.rate == s.rate && t.now == s.now
    ensures Decision(c, t, i, risk) == Decision(c, s, i, risk)
  {
    hide Policy.Decide;
  }

  // ---- other handlers leave a handler alone ----

  /** The label moves the handler pid. */
  predicate Drives(l: Label, pid: nat) {
    (l.Built? || l.Simulated? || l.PromptSettled? || l.Estimated? || l.SigningReturned? || l.Sent?) && l.pid == pid
  }

  ghost predicate OnlyMoves(before: map<nat, Handler>, after: map<nat, Handler>, pid: nat) {
    forall q :: q in before && q != pid ==> q in after && after[q] == before[q]
  }

  lemma PutMoves(handlers: map<nat, Handler>, pid: nat, next: Option<Handler>)
    ensures OnlyMoves(handlers, Put(handlers, pid, next), pid)
  {
    hide Builders.WellFormed;
  }

  lemma PlanMoves(c: Config, s: State, pid: nat, h: Handler, client: Option<Builders.OneInchReply>, plan: BuildPlan,
                  newId: string)
    requires h.BuildBuilding? || h.ApproveBuilding? || h.SignBuilding?
    ensures OnlyMoves(s.handlers, OnPlan(c, s, pid, h, client, plan, newId).handlers, pid)
  {
    hide Builders.WellFormed, OnRiskKnown, OnSignPlan, OnlyMoves;
    match h
    case BuildBuilding(_) => PutMoves(s.handlers, pid, None);
    case ApproveBuilding(i) =>
      if c.rpc(i.chainId) {
        PutMoves(s.handlers, pid, Some(ApproveSimulating(i, plan)));
      } else {
        RiskKnownFrame(c, s, pid, i, plan, 0, newId);
        PutMoves(s.handlers, pid, RiskKnownNext(c, s, i, plan, 0, newId));
      }
    case SignBuilding(i, offered) =>
      SignPlanFrame(c, s, pid, i, offered, client, plan);
      PutMoves(s.handlers, pid, SignPlanNext(c, s, i, offered, client, plan));
  }

  lemma BuiltMoves(c: Config, s: State, pid: nat, h: Handler, client: Option<Builders.OneInchReply>, newId: string)
    requires h.BuildBuilding? || h.ApproveBuilding? || h.SignBuilding?
    ensures OnlyMoves(s.handlers, OnBuilt(c, s, pid, h, client, newId).handlers, pid)
  {
    hide Builders.WellFormed, Builders.BuildFromIntent, OnPlan, OnlyMoves;
    match Builders.BuildFromIntent(c.keccak, h.intent, client)
    case Err(_) => PutMoves(s.handlers, pid, None);
    case Ok(plan) => PlanMoves(c, s, pid, h, client, plan, newId);
  }

  lemma DriverMoves(c: Config, s: State, l: Label)
    requires Act(c, s, l).Some? && (l.Built? || l.Simulated? || l.Estimated?)
    ensures OnlyMoves(s.handlers, Act(c, s, l).value.handlers, l.pid) && Act(c, s, l).value.nextPid == s.nextPid
  {
    hide Builders.WellFormed, OnBuilt, OnRiskKnown, OnAuthorize, OnlyMoves;
    match l
    case Built(pid, client, newId) =>
      BuiltMoves(c, s, pid, s.handlers[pid], client, newId);
      BuiltFrame(c, s, pid, s.handlers[pid], client, newId);
    case Simulated(pid, risk, newId) =>
      PutMoves(s.handlers, pid, None);
      if risk.Some? {
        var h := s.handlers[pid];
        RiskKnownFrame(c, s, pid, h.intent, h.plan, risk.value, newId);
        PutMoves(s.handlers, pid, RiskKnownNext(c, s, h.intent, h.plan, risk.value, newId));
      } else {}
    case Estimated(pid, extras) =>
      AuthorizeFrame(s, pid, s.handlers[pid].job, extras);
      PutMoves(s.handlers, pid, AuthorizeNext(s, s.handlers[pid].job, extras));
  }

  lemma FinishMoves(s: State, pid: nat)
    ensures OnlyMoves(s.handlers, Finish(s, pid).handlers, pid) && Finish(s, pid).nextPid == s.nextPid
  {
    hide Builders.WellFormed, OnlyMoves;
    PutMoves(s.handlers, pid, None);
  }

  lemma SettledMoves(s: State, pid: nat, h: Handler, newId: string)
    requires h.ApprovePrompting? && h.request in s.settled
    ensures OnlyMoves(s.handlers, OnPromptSettled(s, pid, h, newId).handlers, pid)
    ensures OnPromptSettled(s, pid, h, newId).nextPid == s.nextPid
  {
    hide Builders.WellFormed, OnlyMoves;
    PutMoves(s.handlers, pid, None);
    if s.settled[h.request] {} else {}
  }

  lemma SignedMoves(c: Config, s: State, pid: nat, h: Handler)
    requires h.SignSigning?
    ensures OnlyMoves(s.handlers, OnSigned(c, s, pid, h).handlers, pid) && OnSigned(c, s, pid, h).nextPid == s.nextPid
  {
    hide Builders.WellFormed, OnlyMoves;
    PutMoves(s.handlers, pid, None);
    PutMoves(s.handlers, pid, Some(SignBroadcasting(h.job.intent)));
    if c.rpc(h.job.intent.chainId) {} else {}
  }

  lemma EndMoves(c: Config, s: State, l: Label)
    requires Act(c, s, l).Some? && (l.PromptSettled? || l.SigningReturned? || l.Sent?)
    ensures OnlyMoves(s.handlers, Act(c, s, l).value.handlers, l.pid) && Act(c, s, l).value.nextPid == s.nextPid
  {
    hide Builders.WellFormed, OnlyMoves, OnSigned, OnPromptSettled, Finish;
    PutMoves(s.handlers, l.pid, None);
    match l
    case PromptSettled(pid, newId) => SettledMoves(s, pid, s.handlers[pid], newId);
    case SigningReturned(pid, ok) =>
      FinishMoves(s, pid);
      if ok { SignedMoves(c, s, pid, s.handlers[pid]); } else {}
    case Sent(pid) => FinishMoves(s, pid);
  }

  lemma NewcomerMoves(c: Config, s: State, l: Label)
    requires Act(c, s, l).Some? && (l.ReceiveBuild? || l.ReceiveApprove? || l.ReceiveSign?)
    ensures OnlyMoves(s.handlers, Act(c, s, l).value.handlers, s.nextPid) && s.nextPid <= Act(c, s, l).value.nextPid
  {
    hide Builders.WellFormed, Decision;
    match l
    case ReceiveBuild(i) => if Decision(c, s, i, None) == Policy.Deny {} else {}
    case ReceiveApprove(_) =>
    case ReceiveSign(_, _) =>
  }

  lemma BystanderMoves(c: Config, s: State, l: Label)
    requires Act(c, s, l).Some? && Environment(l) && !l.Restart?
    ensures Act(c, s, l).value.handlers == s.handlers && Act(c, s, l).value.nextPid == s.nextPid
  {
    hide Act, Builders.WellFormed;
    if l.WebDecide? || l.PromptAnswered? { ReplyFrame(c, s, l); } else { WorldFrame(c, s, l); }
  }

  lemma HandlerStays(c: Config, s: State, l: Label, pid: nat)
    requires Act(c, s, l).Some? && pid in s.handlers && pid < s.nextPid && !Drives(l, pid) && !l.Restart?
    ensures pid in Act(c, s, l).value.handlers && Act(c, s, l).value.handlers[pid] == s.handlers[pid]
    ensures pid < Act(c, s, l).value.nextPid
  {
    hide Act, Builders.WellFormed;
    if Environment(l) {
      BystanderMoves(c, s, l);
    } else if l.ReceiveBuild? || l.ReceiveApprove? || l.ReceiveSign? {
      NewcomerMoves(c, s, l);
    } else if l.Built? || l.Simulated? || l.Estimated? {
      DriverMoves(c, s, l);
    } else {
      EndMoves(c, s, l);
    }
  }

  // ---- runs from any state ----

  function Runs(c: Config, s: State, labels: seq<Label>): Option<State>
    decreases labels
  {
    if labels == [] then Some(s)
    else match Step(c, s, labels[0])
      case Some(t) => Runs(c, t, labels[1..])
      case None => None
  }

  lemma {:induction false} ExecThenRuns(c: Config, run: seq<Label>, labels: seq<Label>)
    requires Exec(c, run).Some?
    ensures Exec(c, run + labels) == Runs(c, Exec(c, run).value, labels)
    decreases labels
  {
    hide Step;
    if labels == [] {
      assert run + labels == run;
    } else {
      var more := run + [labels[0]];
      assert more[..|run|] == run && more + labels[1..] == run + labels;
      if Step(c, Exec(c, run).value, labels[0]).Some? {
        ExecThenRuns(c, more, labels[1..]);
      } else {
        NoWayOn(c, more, labels[1..]);
      }
    }
  }

  lemma {:induction false} NoWayOn(c: Config, run: seq<Label>, labels: seq<Label>)
    requires Exec(c, run).None?
    ensures Exec(c, run + labels).None?
    decreases labels
  {
    hide Step;
    if labels == [] {
      assert run + labels == run;
    } else {
      var more := run + [labels[0]];
      assert more[..|run|] == run && more + labels[1..] == run + labels;
      NoWayOn(c, more, labels[1..]);
    }
  }

  lemma RunsFirst(c: Config, s: State, l: Label, labels: seq<Label>)
    ensures Runs(c, s, [l] + labels) ==
      match Step(c, s, l) case Some(t) => Runs(c, t, labels) case None => None
  {
    hide Step;
    assert ([l] + labels)[1..] == labels;
  }

  // ---- what others leave in the tables ----

  ghost predicate KeepsEntries(before: Pending.Store, after: Pending.Store) {
    forall r :: r in before ==> r in after
  }

  lemma PlanKeepsEntries(c: Config, s: State, pid: nat, h: Handler, client: Option<Builders.OneInchReply>,
                         plan: BuildPlan, newId: string)
    requires h.BuildBuilding? || h.ApproveBuilding? || h.SignBuilding?
    ensures KeepsEntries(s.pending, OnPlan(c, s, pid, h, client, plan, newId).pending)
  {
    hide Builders.WellFormed, OnRiskKnown, OnSignPlan, Charge;
    match h
    case BuildBuilding(_) =>
    case ApproveBuilding(i) =>
      if c.rpc(i.chainId) {} else { RiskKnownKeepsEntries(c, s, pid, i, plan, 0, newId); }
    case SignBuilding(i, offered) => SignPlanFrame(c, s, pid, i, offered, client, plan);
  }

  lemma RiskKnownKeepsEntries(c: Config, s: State, pid: nat, i: ValidIntent, plan: BuildPlan, risk: nat, newId: string)
    ensures KeepsEntries(s.pending, OnRiskKnown(c, s, pid, i, plan, risk, newId).pending)
  {
    hide Charge, Decision, Builders.WellFormed;
    ChargeFrame(c, s, i, Some(risk));
    if Decision(c, s, i, Some(risk)) == Policy.RequireApproval {
      if c.web {} else {}
    } else {}
  }

  lemma SimulatedKeepsEntries(c: Config, s: State, pid: nat, risk: Option<nat>, newId: string)
    requires Act(c, s, Simulated(pid, risk, newId)).Some?
    ensures KeepsEntries(s.pending, Act(c, s, Simulated(pid, risk, newId)).value.pending)
  {
    hide Builders.WellFormed, OnRiskKnown, KeepsEntries;
    SameEntries(s.pending);
    if risk.Some? {
      RiskKnownKeepsEntries(c, s, pid, s.handlers[pid].intent, s.handlers[pid].plan, risk.value, newId);
    } else {}
  }

  lemma OnBuiltKeepsEntries(c: Config, s: State, pid: nat, h: Handler, client: Option<Builders.OneInchReply>,
                            newId: string)
    requires h.BuildBuilding? || h.ApproveBuilding? || h.SignBuilding?
    ensures KeepsEntries(s.pending, OnBuilt(c, s, pid, h, client, newId).pending)
  {
    hide Builders.WellFormed, Builders.BuildFromIntent, OnPlan, KeepsEntries;
    SameEntries(s.pending);
    match Builders.BuildFromIntent(c.keccak, h.intent, client)
    case Err(_) =>
    case Ok(plan) => PlanKeepsEntries(c, s, pid, h, client, plan, newId);
  }

  lemma BuiltKeepsEntries(c: Config, s: State, pid: nat, client: Option<Builders.OneInchReply>, newId: string)
    requires Act(c, s, Built(pid, client, newId)).Some?
    ensures KeepsEntries(s.pending, Act(c, s, Built(pid, client, newId)).value.pending)
  {
    hide Builders.WellFormed, OnBuilt, KeepsEntries;
    OnBuiltKeepsEntries(c, s, pid, s.handlers[pid], client, newId);
  }

  lemma SameEntries(pending: Pending.Store)
    ensures KeepsEntries(pending, pending)
  {
  }

  /** An entry goes only by its own decision, by closing, by a restart, or late. */
  lemma EntryStays(c: Config, s: State, l: Label, r: string)
    requires Act(c, s, l).Some? && r in s.pending && !Closes(l, r) && !l.Restart?
    ensures r in Act(c, s, l).value.pending || Pending.Late(s.pending[r], s.now, c.ttlMs)
  {
    hide Act, Builders.WellFormed;
    if l.Built? {
      BuiltKeepsEntries(c, s, l.pid, l.client, l.freshRequest);
    } else if l.Simulated? {
      SimulatedKeepsEntries(c, s, l.pid, l.riskScore, l.freshRequest);
    } else if l.PromptSettled? {
      IssueFrame(c, s, l.pid, l.freshToken);
    } else if l.SigningReturned? {
      SignatureFrame(c, s, l.pid, l.ok);
    } else if Environment(l) {
      EntryOutlives(c, s, l, r);
    } else {
      WorkFrame(c, s, l);
    }
  }

  lemma CleanedEntries(c: Config, s: State)
    ensures Act(c, s, PendingCleanup).Some?
    ensures Act(c, s, PendingCleanup).value.pending == Pending.Cleanup(s.pending, s.now, c.ttlMs)
  {
    hide Builders.WellFormed, Pending.Cleanup;
  }

  lemma EntryOutlives(c: Config, s: State, l: Label, r: string)
    requires Act(c, s, l).Some? && Environment(l) && r in s.pending && !Closes(l, r) && !l.Restart?
    ensures r in Act(c, s, l).value.pending || Pending.Late(s.pending[r], s.now, c.ttlMs)
  {
    hide Act, Builders.WellFormed;
    match l
    case WebDecide(q, approved) => WebDecided(c, s, q, approved);
    case PromptAnswered(q, approved) => TerminalAnswered(c, s, q, approved);
    case PendingCleanup => CleanedEntries(c, s);
    case _ => WorldFrame(c, s, l);
  }

  /** A promise that is settled, or that nobody can settle but its own answer, stays so. */
  lemma SettlementStays(c: Config, s: State, l: Label, r: string)
    requires Act(c, s, l).Some? && r !in s.pending && !Closes(l, r) && !l.Restart?
    ensures r in Act(c, s, l).value.settled <==> r in s.settled
    ensures r in s.settled ==> Act(c, s, l).value.settled[r] == s.settled[r]
  {
    hide Act, Builders.WellFormed, Closes;
    if l.Built? {
      BuiltStepFrame(c, s, l);
    } else if l.Simulated? {
      SimulatedFrame(c, s, l.pid, l.riskScore, l.freshRequest);
    } else if l.PromptSettled? {
      IssueFrame(c, s, l.pid, l.freshToken);
    } else if l.SigningReturned? {
      SignatureFrame(c, s, l.pid, l.ok);
    } else if Environment(l) {
      SettlementOutlives(c, s, l, r);
    } else {
      WorkFrame(c, s, l);
    }
  }

  lemma CleanedSettlements(c: Config, s: State, r: string)
    requires r !in s.pending
    ensures Act(c, s, PendingCleanup).Some?
    ensures var t := Act(c, s, PendingCleanup).value;
      (r in t.settled <==> r in s.settled) && (r in s.settled ==> t.settled[r] == s.settled[r])
  {
    hide Builders.WellFormed, Pending.Cleanup;
  }

  lemma AnswerLeavesOthers(c: Config, s: State, l: Label, r: string)
    requires Act(c, s, l).Some? && (l.WebDecide? || l.PromptAnswered?) && !Closes(l, r)
    ensures r in Act(c, s, l).value.settled <==> r in s.settled
    ensures r in s.settled ==> Act(c, s, l).value.settled[r] == s.settled[r]
  {
    hide Act, Builders.WellFormed;
    match l
    case WebDecide(q, approved) => WebDecided(c, s, q, approved);
    case PromptAnswered(q, approved) => TerminalAnswered(c, s, q, approved);
  }

  lemma SettlementOutlives(c: Config, s: State, l: Label, r: string)
    requires Act(c, s, l).Some? && Environment(l) && r !in s.pending && !Closes(l, r) && !l.Restart?
    ensures r in Act(c, s, l).value.settled <==> r in s.settled
    ensures r in s.settled ==> Act(c, s, l).value.settled[r] == s.settled[r]
  {
    hide Act, Builders.WellFormed;
    if l.WebDecide? || l.PromptAnswered? {
      AnswerLeavesOthers(c, s, l, r);
    } else if l.PendingCleanup? {
      CleanedSettlements(c, s, r);
    } else {
      WorldFrame(c, s, l);
    }
  }

  /** A row goes only when it has expired, and changes only when it is spent. */
  lemma RowStays(c: Config, s: State, l: Label, t: string)
    requires Inv(c, s) && Act(c, s, l).Some? && t in s.tokens && t !in Act(c, s, l).value.spendings
    ensures var tokens := Act(c, s, l).value.tokens;
      (t in tokens && tokens[t] == s.tokens[t]) || (t !in tokens && Tokens.IsExpired(s.tokens[t], s.now))
  {
    hide Act, Inv, Builders.WellFormed;
    match l
    case Built(_, _, _) => StepPays(c, s, l);
    case Estimated(_, _) => StepPays(c, s, l);
    case Simulated(pid, risk, newId) => SimulatedFrame(c, s, pid, risk, newId);
    case PromptSettled(pid, newId) => IssuedRow(c, s, pid, newId, t);
    case SigningReturned(pid, ok) => SignatureFrame(c, s, pid, ok);
    case ReceiveBuild(_) => WorkFrame(c, s, l);
    case ReceiveApprove(_) => WorkFrame(c, s, l);
    case ReceiveSign(_, _) => WorkFrame(c, s, l);
    case Sent(_) => WorkFrame(c, s, l);
    case _ => RowOutlives(c, s, l, t);
  }

  lemma IssuedRow(c: Config, s: State, pid: nat, newId: string, t: string)
    requires Inv(c, s) && Act(c, s, PromptSettled(pid, newId)).Some? && t in s.tokens
    ensures var tokens := Act(c, s, PromptSettled(pid, newId)).value.tokens; t in tokens && tokens[t] == s.tokens[t]
  {
    hide PendingOk, AnswersOk, SettledOk, PromptsOk, IssuesOk, SpendingsOk, SignaturesOk, HandlersOk, PidsOk, HistoryOk;
    hide Builders.WellFormed, RowOk;
    if s.settled[s.handlers[pid].request] {} else {}
  }

  lemma CleanedTokens(c: Config, s: State)
    ensures Act(c, s, TokenCleanup) == Some(s.(tokens := Tokens.Cleanup(s.tokens, s.now)))
  {
    hide Tokens.Cleanup, Builders.WellFormed;
  }

  lemma RowOutlives(c: Config, s: State, l: Label, t: string)
    requires Act(c, s, l).Some? && Environment(l) && t in s.tokens
    ensures var tokens := Act(c, s, l).value.tokens;
      (t in tokens && tokens[t] == s.tokens[t]) || (t !in tokens && Tokens.IsExpired(s.tokens[t], s.now))
  {
    hide Act, Builders.WellFormed;
    if l.WebDecide? || l.PromptAnswered? {
      ReplyFrame(c, s, l);
    } else {
      WorldFrame(c, s, l);
      if l.TokenCleanup? { CleanedTokens(c, s); }
    }
  }
}
