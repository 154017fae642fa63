/** What the protocol lets through: an intent that is approved in time is signed, whatever else
    goes on; and which intents are signed without anybody being asked. */
module Progress {
  import opened Types
  import opened Protocol
  import opened Frames
  import opened Safety
  import opened History
  import opened Moves
  import Text
  import Policy
  import Tokens
  import RateLimit
  import Audit
  import Pending
  import Builders

  // ---- an errand: one intent from its approval request to its signature ----

  /** What the caller and the world bring along: the intent, the plan it builds both times, the
      score found by the simulation, the names drawn and the fees found. */
  datatype Errand = Errand(intent: ValidIntent, plan: BuildPlan, client: Option<Builders.OneInchReply>,
                           client': Option<Builders.OneInchReply>, risk: nat, request: string, token: string,
                           request': string, extras: Option<Extras>)

  /** How far it has come, with the handler that carries it. */
  datatype Stage =
    | Start
    | Building(pid: nat)
    | Simulating(pid: nat)
    | Asking(pid: nat)
    | Answered(pid: nat)
    | Holding
    | Offering(pid: nat)
    | Estimating(pid: nat)
    | AtSigner(pid: nat)
    | Done

  predicate Builds(c: Config, e: Errand) {
    Builders.BuildFromIntent(c.keccak, e.intent, e.client) == Ok(e.plan) &&
    Builders.BuildFromIntent(c.keccak, e.intent, e.client') == Ok(e.plan)
  }

  predicate SignerTakes(c: Config, e: Errand) {
    Signable(c.keccak, e.plan.tx, FeesFound(c, e.intent, e.extras))
  }

  /** The label that carries the errand on. */
  function Move(c: Config, e: Errand, st: Stage): Label
    requires !st.Done?
  {
    match st
    case Start => ReceiveApprove(e.intent)
    case Building(pid) => Built(pid, e.client, e.request)
    case Simulating(pid) => Simulated(pid, Some(e.risk), e.request)
    case Asking(_) => ReplyLabel(c, e.request, true)
    case Answered(pid) => PromptSettled(pid, e.token)
    case Holding => ReceiveSign(e.intent, Some(e.token))
    case Offering(pid) => Built(pid, e.client', e.request')
    case Estimating(pid) => Estimated(pid, e.extras)
    case AtSigner(pid) => SigningReturned(pid, true)
  }

  function NextStage(c: Config, e: Errand, st: Stage, s: State): Stage
    requires !st.Done?
  {
    match st
    case Start => Building(s.nextPid)
    case Building(pid) => if c.rpc(e.intent.chainId) then Simulating(pid) else Asking(pid)
    case Simulating(pid) => Asking(pid)
    case Asking(pid) => Answered(pid)
    case Answered(_) => Holding
    case Holding => Offering(s.nextPid)
    case Offering(pid) => if c.rpc(e.intent.chainId) then Estimating(pid) else AtSigner(pid)
    case Estimating(pid) => AtSigner(pid)
    case AtSigner(_) => Done
  }

  /** How many moves are left. */
  function MovesLeft(c: Config, e: Errand, st: Stage): nat {
    var rpc := c.rpc(e.intent.chainId);
    match st
    case Start => if rpc then 9 else 7
    case Building(_) => if rpc then 8 else 6
    case Simulating(_) => 7
    case Asking(_) => if rpc then 6 else 5
    case Answered(_) => if rpc then 5 else 4
    case Holding => if rpc then 4 else 3
    case Offering(_) => if rpc then 3 else 2
    case Estimating(_) => 2
    case AtSigner(_) => 1
    case Done => 0
  }

  /** The token is young enough at s. */
  predicate Young(e: Errand, s: State) {
    e.token in s.issues && s.now - s.issues[e.token].at <= 299_000
  }

  predicate Unlocked(e: Errand, s: State) { Text.Lower(e.intent.wallet) in s.unlocked }

  predicate AsksForApproval(c: Config, e: Errand, s: State, risk: Option<int>) {
    Decision(c, s, e.intent, risk) == Policy.RequireApproval
  }

  /** What must be so when the errand moves: names are new, the policy asks for approval, the yes
      comes in time, the token is young, the key unlocked, and the signer takes the request. */
  predicate Ready(c: Config, e: Errand, st: Stage, s: State) {
    var rpc := c.rpc(e.intent.chainId);
    match st
    case Building(_) => e.request !in s.prompts && (!rpc ==> AsksForApproval(c, e, s, Some(0)))
    case Simulating(_) => e.request !in s.prompts && AsksForApproval(c, e, s, Some(e.risk))
    case Asking(_) => c.web ==> e.request in s.prompts && s.now - s.prompts[e.request].at <= c.ttlMs
    case Answered(_) => e.token !in s.issues
    case Offering(_) =>
      e.request' !in s.prompts && AsksForApproval(c, e, s, None) && Young(e, s) && (!rpc ==> Unlocked(e, s))
    case Estimating(_) => Young(e, s) && Unlocked(e, s)
    case AtSigner(_) => SignerTakes(c, e)
    case _ => true
  }

  predicate Carried(st: Stage) {
    st.Building? || st.Simulating? || st.Asking? || st.Answered? || st.Offering? || st.Estimating? || st.AtSigner?
  }

  /** What the label l of somebody else must not do to the errand, t being the state after it:
      move its handler, restart the core while a handler carries it, answer or close its prompt,
      or spend its token. */
  predicate Spares(e: Errand, st: Stage, l: Label, t: State) {
    && (Carried(st) ==> !Drives(l, st.pid) && !l.Restart?)
    && (st.Asking? ==> !Closes(l, e.request))
    && (st.Holding? || st.Offering? || st.Estimating? ==> e.token !in t.spendings)
  }

  // ---- where the errand is ----

  predicate Carries(s: State, pid: nat, h: Handler) {
    pid in s.handlers && pid < s.nextPid && s.handlers[pid] == h
  }

  predicate TheJob(e: Errand, job: Job) {
    job.intent == e.intent && job.plan == e.plan && job.token == Some(e.token) && job.verdict == Policy.RequireApproval
  }

  predicate CarriesJob(e: Errand, s: State, pid: nat, estimating: bool) {
    pid in s.handlers && pid < s.nextPid &&
    (if estimating then s.handlers[pid].SignEstimating? else s.handlers[pid].SignSigning?) &&
    TheJob(e, s.handlers[pid].job)
  }

  /** The token was issued for the errand and is unspent; only its age may have removed it. */
  predicate Held(e: Errand, s: State) {
    && e.token in s.issues && s.issues[e.token].intentId == e.intent.id
    && s.issues[e.token].hash == e.plan.txRequestHash && e.token !in s.spendings
    && ((e.token in s.tokens && !s.tokens[e.token].consumed) ||
        s.now - s.issues[e.token].at > 299_000)
  }

  /** The prompt is open; only its age may have closed it. */
  predicate Open(c: Config, e: Errand, s: State) {
    e.request in s.prompts &&
    if c.web then e.request in s.pending || s.now - s.prompts[e.request].at > c.ttlMs
    else e.request !in s.settled && e.request !in s.answers
  }

  /** The signature is the errand's: its plan, with its token and the fees found. */
  predicate Signed(c: Config, e: Errand, sig: Signature) {
    TheJob(e, sig.job) && sig.extras == FeesFound(c, e.intent, e.extras)
  }

  /** One of the signatures from the n-th on is the errand's. */
  ghost predicate SignedSince(c: Config, e: Errand, s: State, n: nat) {
    exists k :: n <= k < |s.signatures| && Signed(c, e, s.signatures[k])
  }

  ghost predicate At(c: Config, e: Errand, st: Stage, s: State, n: nat) {
    n <= |s.signatures| &&
    match st
    case Start => true
    case Building(pid) => Carries(s, pid, ApproveBuilding(e.intent))
    case Simulating(pid) => c.rpc(e.intent.chainId) && Carries(s, pid, ApproveSimulating(e.intent, e.plan))
    case Asking(pid) => Carries(s, pid, ApprovePrompting(e.intent, e.plan, e.request)) && Open(c, e, s)
    case Answered(pid) =>
      Carries(s, pid, ApprovePrompting(e.intent, e.plan, e.request)) && e.request in s.settled && s.settled[e.request]
    case Holding => Held(e, s)
    case Offering(pid) => Carries(s, pid, SignBuilding(e.intent, Some(e.token))) && Held(e, s)
    case Estimating(pid) => c.rpc(e.intent.chainId) && CarriesJob(e, s, pid, true) && Held(e, s)
    case AtSigner(pid) => CarriesJob(e, s, pid, false) && s.handlers[pid].extras == FeesFound(c, e.intent, e.extras)
    case Done => SignedSince(c, e, s, n)
  }

  // ---- the errand's own moves ----

  lemma AnswerMove(c: Config, e: Errand, pid: nat, s: State, n: nat)
    requires Inv(c, s) && At(c, e, Asking(pid), s, n) && Ready(c, e, Asking(pid), s)
    ensures Step(c, s, ReplyLabel(c, e.request, true)).Some?
    ensures At(c, e, Answered(pid), Step(c, s, ReplyLabel(c, e.request, true)).value, n)
  {
    hide Inv, Builders.WellFormed, Step, ReplyLabel;
    PromptIsOpen(c, e, pid, s, n);
    ReplyStep(c, s, e.request, true);
  }

  lemma IssueMove(c: Config, e: Errand, pid: nat, s: State, n: nat)
    requires Inv(c, s) && At(c, e, Answered(pid), s, n) && Ready(c, e, Answered(pid), s)
    ensures Step(c, s, PromptSettled(pid, e.token)).Some?
    ensures At(c, e, Holding, Step(c, s, PromptSettled(pid, e.token)).value, n)
  {
    hide PendingOk, AnswersOk, SettledOk, PromptsOk, IssuesOk, TokensOk, SignaturesOk, HandlersOk, PidsOk, HistoryOk;
    hide Builders.WellFormed, Step;
    TokenStep(c, s, pid, e.intent, e.plan, e.request, e.token);
  }

  lemma HeldTokenIsValid(c: Config, e: Errand, s: State)
    requires Inv(c, s) && Held(e, s) && Young(e, s)
    ensures Tokens.Validate(s.tokens, e.token, e.intent.id, e.plan.txRequestHash, s.now) == None
  {
    hide PendingOk, AnswersOk, SettledOk, PromptsOk, IssuesOk, SpendingsOk, SignaturesOk, HandlersOk, PidsOk, HistoryOk;
    hide Builders.WellFormed;
  }

  /** The gates let the job through. */
  lemma GatesOpen(c: Config, e: Errand, s: State, pid: nat, job: Job, extras: Option<Extras>, n: nat)
    requires Inv(c, s) && Held(e, s) && Young(e, s) && Unlocked(e, s) && TheJob(e, job)
    requires pid < s.nextPid && n <= |s.signatures| && extras == FeesFound(c, e.intent, e.extras)
    ensures var u := OnAuthorize(s, pid, job, extras); At(c, e, AtSigner(pid), u.(step := u.step + 1), n)
  {
    hide Inv, OnAuthorize, Builders.WellFormed, Tokens.Validate, Held, Young, Text.Lower;
    HeldTokenIsValid(c, e, s);
    AuthorizeFrame(s, pid, job, extras);
  }

  lemma OfferMove(c: Config, e: Errand, pid: nat, s: State, n: nat)
    requires Inv(c, s) && Builds(c, e) && At(c, e, Offering(pid), s, n) && Ready(c, e, Offering(pid), s)
    ensures Step(c, s, Built(pid, e.client', e.request')).Some?
    ensures At(c, e, NextStage(c, e, Offering(pid), s), Step(c, s, Built(pid, e.client', e.request')).value, n)
  {
    hide Inv, OnAuthorize, Builders.WellFormed, Builders.BuildFromIntent, Tokens.Validate, Step, Charge;
    hide Held, Young, Unlocked;
    SignPlanStep(c, s, pid, e.intent, Some(e.token), e.client', e.plan, e.request');
    HeldTokenIsValid(c, e, s);
    var job := NewJob(c, s, e.intent, Some(e.token), e.client', e.plan);
    var t := Charge(c, s, e.intent, None);
    ChargeKeeps(c, s, e.intent, None);
    SameTables(e, s, t);
    if c.rpc(e.intent.chainId) {
      SameTables(e, s, Step(c, s, Built(pid, e.client', e.request')).value);
    } else {
      GatesOpen(c, e, t, pid, job, None, n);
    }
  }

  lemma SameTables(e: Errand, s: State, t: State)
    requires t.issues == s.issues && t.spendings == s.spendings && t.tokens == s.tokens
    requires t.now == s.now && t.unlocked == s.unlocked
    ensures Held(e, s) ==> Held(e, t)
    ensures Young(e, s) ==> Young(e, t)
    ensures Unlocked(e, s) ==> Unlocked(e, t)
  {
    hide Text.Lower;
  }

  lemma MoveKeepsAt(c: Config, e: Errand, st: Stage, s: State, n: nat)
    requires Inv(c, s) && Builds(c, e) && At(c, e, st, s, n) && Ready(c, e, st, s) && !st.Done?
    ensures Step(c, s, Move(c, e, st)).Some?
    ensures At(c, e, NextStage(c, e, st, s), Step(c, s, Move(c, e, st)).value, n)
  {
    hide Inv, Step, ReplyLabel, Builders.WellFormed, Builders.BuildFromIntent, Decision, Held, Pending.Add;
    hide RateLimit.Record;
    match st
    case Start => ReceiveApproveStep(c, s, e.intent);
    case Building(pid) =>
      if c.rpc(e.intent.chainId) {
        SimulateStep(c, s, pid, e.intent, e.client, e.plan, e.request);
      } else {
        AskAfterBuild(c, s, pid, e.intent, e.client, e.plan, e.request);
        AskedIsOpen(c, e, s, pid);
      }
    case Simulating(pid) =>
      AskAfterSimulation(c, s, pid, e.intent, e.plan, e.risk, e.request);
      AskedIsOpen(c, e, s, pid);
    case Asking(pid) => AnswerMove(c, e, pid, s, n);
    case Answered(pid) => IssueMove(c, e, pid, s, n);
    case Holding =>
      ReceiveSignStep(c, s, e.intent, Some(e.token));
      SameTables(e, s, Step(c, s, Move(c, e, st)).value);
    case Offering(pid) => OfferMove(c, e, pid, s, n);
    case Estimating(pid) => EstimateMove(c, e, pid, s, n);
    case AtSigner(pid) => SignMove(c, e, pid, s, n);
  }

  lemma AskedIsOpen(c: Config, e: Errand, s: State, pid: nat)
    requires Inv(c, s) && e.request !in s.prompts
    ensures Open(c, e, Asked(c, s, pid, e.intent, e.plan, e.request))
  {
    hide PromptsOk, IssuesOk, TokensOk, SpendingsOk, SignaturesOk, HandlersOk, PidsOk, HistoryOk, PendingOk;
    hide Builders.WellFormed, RateLimit.Record;
  }

  lemma EstimateMove(c: Config, e: Errand, pid: nat, s: State, n: nat)
    requires Inv(c, s) && At(c, e, Estimating(pid), s, n) && Ready(c, e, Estimating(pid), s)
    ensures Step(c, s, Estimated(pid, e.extras)).Some?
    ensures At(c, e, AtSigner(pid), Step(c, s, Estimated(pid, e.extras)).value, n)
  {
    hide Inv, OnAuthorize, Builders.WellFormed, Step, Held, Young, Unlocked;
    EstimatedStep(c, s, pid, s.handlers[pid].job, e.extras);
    GatesOpen(c, e, s, pid, s.handlers[pid].job, e.extras, n);
  }

  lemma SignMove(c: Config, e: Errand, pid: nat, s: State, n: nat)
    requires At(c, e, AtSigner(pid), s, n) && Ready(c, e, AtSigner(pid), s)
    ensures Step(c, s, SigningReturned(pid, true)).Some?
    ensures At(c, e, Done, Step(c, s, SigningReturned(pid, true)).value, n)
  {
    hide Builders.WellFormed, Step, Signable;
    SignStep(c, s, pid);
    var t := Step(c, s, SigningReturned(pid, true)).value;
    assert Signed(c, e, t.signatures[|s.signatures|]);
  }

  // ---- what others do in between ----

  lemma HeldStays(c: Config, e: Errand, s: State, l: Label)
    requires Inv(c, s) && Act(c, s, l).Some? && Held(e, s) && e.token !in Act(c, s, l).value.spendings
    ensures Held(e, Act(c, s, l).value)
  {
    hide Act, Inv, Adds;
    StepAdds(c, s, l);
    IssuesStay(s, Act(c, s, l).value, l, e.token);
    TimePasses(c, s, l);
    if e.token in s.tokens {
      RowStays(c, s, l, e.token);
      ExpiredIsOld(c, s, e.token);
    }
  }

  lemma IssuesStay(s: State, t: State, l: Label, tok: string)
    requires Adds(s, t, l) && tok in s.issues
    ensures tok in t.issues && t.issues[tok] == s.issues[tok]
  {
    hide NewAnswers, NewPrompts, NewSpendings, NewSignatures;
  }

  lemma ExpiredIsOld(c: Config, s: State, tok: string)
    requires Inv(c, s) && tok in s.tokens && tok in s.issues
    ensures Tokens.IsExpired(s.tokens[tok], s.now) ==> s.now - s.issues[tok].at > 299_000
  {
    hide PendingOk, AnswersOk, SettledOk, PromptsOk, IssuesOk, SpendingsOk, SignaturesOk, HandlersOk, PidsOk, HistoryOk;
  }

  lemma OpenStays(c: Config, e: Errand, s: State, l: Label)
    requires Inv(c, s) && Act(c, s, l).Some? && Open(c, e, s) && !Closes(l, e.request) && !l.Restart?
    ensures Open(c, e, Act(c, s, l).value)
  {
    hide Act, Inv, Adds;
    StepAdds(c, s, l);
    PromptsStay(s, Act(c, s, l).value, l, e.request);
    TimePasses(c, s, l);
    if c.web {
      if e.request in s.pending {
        EntryStays(c, s, l, e.request);
        EntryAge(c, s, e.request);
      }
    } else {
      NothingPending(c, s);
      SettlementStays(c, s, l, e.request);
      NoOtherAnswer(s, Act(c, s, l).value, l, e.request);
    }
  }

  lemma PromptsStay(s: State, t: State, l: Label, r: string)
    requires Adds(s, t, l) && r in s.prompts
    ensures r in t.prompts && t.prompts[r] == s.prompts[r]
  {
    hide NewAnswers, NewIssues, NewSpendings, NewSignatures;
  }

  lemma NoOtherAnswer(s: State, t: State, l: Label, r: string)
    requires Adds(s, t, l) && r !in s.answers && !Closes(l, r)
    ensures r !in t.answers
  {
    hide NewPrompts, NewIssues, NewSpendings, NewSignatures;
  }

  lemma EntryAge(c: Config, s: State, r: string)
    requires Inv(c, s) && r in s.pending
    ensures r in s.prompts && s.pending[r].createdAt == s.prompts[r].at
  {
    hide AnswersOk, SettledOk, PromptsOk, IssuesOk, TokensOk, SpendingsOk, SignaturesOk, HandlersOk, PidsOk, HistoryOk;
  }

  lemma NothingPending(c: Config, s: State)
    requires Inv(c, s) && !c.web
    ensures s.pending == map[]
  {
    hide AnswersOk, SettledOk, PromptsOk, IssuesOk, TokensOk, SpendingsOk, SignaturesOk, HandlersOk, PidsOk, HistoryOk;
    hide PendingOk;
  }

  /** A prompt answered yes is no longer pending, so it stays settled. */
  lemma YesStays(c: Config, s: State, l: Label, r: string)
    requires Inv(c, s) && Act(c, s, l).Some? && r in s.settled && s.settled[r] && !l.Restart?
    ensures r in Act(c, s, l).value.settled && Act(c, s, l).value.settled[r]
  {
    hide Act, Inv;
    YesIsRecorded(c, s, r);
    match l
    case WebDecide(_, _) => SettledOnce(c, s, l, r);
    case PromptAnswered(_, _) => SettledOnce(c, s, l, r);
    case ClosePending => SettledOnce(c, s, l, r);
    case _ => SettlementStays(c, s, l, r);
  }

  lemma YesIsRecorded(c: Config, s: State, r: string)
    requires Inv(c, s) && r in s.settled && s.settled[r]
    ensures r !in s.pending
  {
    hide AnswersOk, PromptsOk, IssuesOk, TokensOk, SpendingsOk, SignaturesOk, HandlersOk, PidsOk, HistoryOk;
  }

  lemma ClosedSettlements(c: Config, s: State, r: string)
    requires r !in s.pending
    ensures Act(c, s, ClosePending).Some?
    ensures var t := Act(c, s, ClosePending).value;
      r in s.settled ==> r in t.settled && t.settled[r] == s.settled[r]
  {
    hide Builders.WellFormed;
  }

  lemma SettledOnce(c: Config, s: State, l: Label, r: string)
    requires Act(c, s, l).Some? && r in s.settled && s.settled[r] && r !in s.pending
    requires l.WebDecide? || l.PromptAnswered? || l.ClosePending?
    ensures r in Act(c, s, l).value.settled && Act(c, s, l).value.settled[r]
  {
    hide Act, Builders.WellFormed, Pending.Decide;
    match l
    case WebDecide(q, approved) => WebDecided(c, s, q, approved);
    case PromptAnswered(q, approved) => TerminalAnswered(c, s, q, approved);
    case ClosePending => ClosedSettlements(c, s, r);
  }

  lemma SignaturesStay(c: Config, e: Errand, s: State, t: State, l: Label, n: nat)
    requires Adds(s, t, l) && n <= |s.signatures|
    ensures n <= |t.signatures|
    ensures SignedSince(c, e, s, n) ==> SignedSince(c, e, t, n)
  {
    hide NewAnswers, NewPrompts, NewIssues, NewSpendings, Builders.WellFormed, Signed;
    if SignedSince(c, e, s, n) {
      var k :| n <= k < |s.signatures| && Signed(c, e, s.signatures[k]);
      assert t.signatures[..|s.signatures|][k] == s.signatures[k];
      assert Signed(c, e, t.signatures[k]);
    }
  }

  /** What spares the errand leaves it where it is. */
  lemma OthersKeepAt(c: Config, e: Errand, st: Stage, s: State, l: Label, n: nat)
    requires Inv(c, s) && At(c, e, st, s, n) && Act(c, s, l).Some? && Spares(e, st, l, Act(c, s, l).value)
    ensures At(c, e, st, Act(c, s, l).value, n)
  {
    hide Act, Inv, Adds, Held, Open, SignedSince, Drives, Closes, Builders.WellFormed;
    var t := Act(c, s, l).value;
    StepAdds(c, s, l);
    SignaturesStay(c, e, s, t, l, n);
    if Carried(st) { HandlerStays(c, s, l, st.pid); }
    match st
    case Asking(_) => OpenStays(c, e, s, l);
    case Answered(_) => YesStays(c, s, l, e.request);
    case Holding => HeldStays(c, e, s, l);
    case Offering(_) => HeldStays(c, e, s, l);
    case Estimating(_) => HeldStays(c, e, s, l);
    case _ =>
  }

  lemma OthersStepKeepsAt(c: Config, e: Errand, st: Stage, s: State, l: Label, n: nat)
    requires Inv(c, s) && At(c, e, st, s, n) && Step(c, s, l).Some? && Spares(e, st, l, Step(c, s, l).value)
    ensures At(c, e, st, Step(c, s, l).value, n)
  {
    hide Act, Inv, Drives, Closes, Builders.WellFormed, At;
    OthersKeepAt(c, e, st, s, l, n);
    CountedOn(c, e, st, Act(c, s, l).value, n);
  }

  /** The step counter does not matter. */
  lemma CountedOn(c: Config, e: Errand, st: Stage, s: State, n: nat)
    requires At(c, e, st, s, n)
    ensures At(c, e, st, s.(step := s.step + 1), n)
  {
    hide Builders.WellFormed, TheJob;
  }

  // ---- turns: the errand's moves, and any labels of others in between ----

  /** None is the errand's turn. */
  type Turns = seq<Option<Label>>

  function Own(turns: Turns): nat {
    if turns == [] then 0 else (if turns[0].None? then 1 else 0) + Own(turns[1..])
  }

  function TurnLabel(c: Config, e: Errand, st: Stage, turn: Option<Label>): Label {
    if turn.Some? || st.Done? then turn.GetOr(TokenCleanup) else Move(c, e, st)
  }

  function TurnStage(c: Config, e: Errand, st: Stage, s: State, turn: Option<Label>): Stage {
    if turn.Some? || st.Done? then st else NextStage(c, e, st, s)
  }

  /** The labels of the run the turns stand for, from s on. */
  function Script(c: Config, e: Errand, st: Stage, s: State, turns: Turns): seq<Label>
    decreases turns
  {
    if turns == [] then []
    else
      var l := TurnLabel(c, e, st, turns[0]);
      match Step(c, s, l)
      case None => [l]
      case Some(t) => [l] + Script(c, e, TurnStage(c, e, st, s, turns[0]), t, turns[1..])
  }

  /** Others do only what is possible and spares the errand; the world is ready when it moves. */
  ghost predicate Fair(c: Config, e: Errand, st: Stage, s: State, turns: Turns)
    decreases turns
  {
    turns == [] ||
    var next := Step(c, s, TurnLabel(c, e, st, turns[0]));
    && (turns[0].Some? ==> next.Some? && Spares(e, st, turns[0].value, next.value))
    && (turns[0].None? ==> Ready(c, e, st, s))
    && (next.Some? ==> Fair(c, e, TurnStage(c, e, st, s, turns[0]), next.value, turns[1..]))
  }

  lemma FewerMoves(c: Config, e: Errand, st: Stage, s: State, n: nat)
    requires !st.Done? && At(c, e, st, s, n)
    ensures MovesLeft(c, e, NextStage(c, e, st, s)) == MovesLeft(c, e, st) - 1
  {
    hide Held, Open, SignedSince, Builders.WellFormed;
  }

  /** As many moves as are left carry the errand to its signature. */
  lemma {:induction false} TurnsReachTheEnd(c: Config, e: Errand, st: Stage, s: State, turns: Turns, n: nat)
    requires Inv(c, s) && Builds(c, e) && At(c, e, st, s, n) && Fair(c, e, st, s, turns)
    requires Own(turns) == MovesLeft(c, e, st)
    ensures Runs(c, s, Script(c, e, st, s, turns)).Some?
    ensures SignedSince(c, e, Runs(c, s, Script(c, e, st, s, turns)).value, n)
    decreases turns
  {
    hide Inv, Builds, Step, Spares, Ready, NextStage, Move, SignedSince;
    if turns == [] {
      NoMovesLeft(c, e, st, s, n);
    } else {
      hide At, MovesLeft;
      var l := TurnLabel(c, e, st, turns[0]);
      if turns[0].Some? {
        OthersStepKeepsAt(c, e, st, s, l, n);
      } else {
        MoveIsLeft(c, e, st);
        MoveKeepsAt(c, e, st, s, n);
        FewerMoves(c, e, st, s, n);
      }
      var t := Step(c, s, l).value;
      StepKeepsInv(c, s, l);
      TurnsReachTheEnd(c, e, TurnStage(c, e, st, s, turns[0]), t, turns[1..], n);
      RunsFirst(c, s, l, Script(c, e, TurnStage(c, e, st, s, turns[0]), t, turns[1..]));
    }
  }

  lemma NoMovesLeft(c: Config, e: Errand, st: Stage, s: State, n: nat)
    requires At(c, e, st, s, n) && MovesLeft(c, e, st) == 0
    ensures SignedSince(c, e, s, n)
  {
    hide Held, Open, SignedSince, Builders.WellFormed;
  }

  lemma MoveIsLeft(c: Config, e: Errand, st: Stage)
    ensures MovesLeft(c, e, st) > 0 ==> !st.Done?
  {
  }

  /** From every reachable state, on chains with a client and without, with answers from the web
      page or the terminal, and with any labels of others in between that spare it: an intent that
      builds is signed, on its plan and with its token, if each time it moves the world is ready. */
  lemma ApprovedIntentIsSigned(c: Config, run: seq<Label>, e: Errand, turns: Turns)
    requires Exec(c, run).Some? && Builds(c, e)
    requires Fair(c, e, Start, Exec(c, run).value, turns) && Own(turns) == MovesLeft(c, e, Start)
    ensures var s := Exec(c, run).value; var t := Exec(c, run + Script(c, e, Start, s, turns));
      t.Some? && SignedSince(c, e, t.value, |s.signatures|)
  {
    hide Exec, Inv, Fair, Builds, Script, Runs, SignedSince;
    var s := Exec(c, run).value;
    RunKeepsInv(c, run);
    TurnsReachTheEnd(c, e, Start, s, turns, |s.signatures|);
    ExecThenRuns(c, run, Script(c, e, Start, s, turns));
  }

  // ---- when nobody interferes ----

  lemma {:induction false} CountFades(ticks: seq<Audit.Tick>, wallet: string, since: int, later: int)
    requires since <= later
    ensures Audit.Count(ticks, wallet, later) <= Audit.Count(ticks, wallet, since)
  {
    if ticks != [] { CountFades(ticks[..|ticks| - 1], wallet, since, later); }
  }

  lemma RecentFades(s: State, t: State, i: Intent)
    requires t.rate == s.rate && s.now <= t.now
    ensures Recent(t, i) <= Recent(s, i)
  {
    CountFades(s.rate.table, i.wallet, s.now - RateLimit.RATE_LIMIT_WINDOW_MS, t.now - RateLimit.RATE_LIMIT_WINDOW_MS);
  }

  /** Fewer recent transactions never turn require_approval into something else. */
  lemma FewerRecent(i: Intent, c: PolicyConfig, n: nat, m: nat)
    requires m <= n && Policy.Decide(i, c, Policy.Options(None, Some(n))) == Policy.RequireApproval
    ensures Policy.Decide(i, c, Policy.Options(None, Some(m))) == Policy.RequireApproval
  {
    hide Policy.AnyTokenRejected, Policy.ContractRejected, Policy.RecipientRejected, Policy.OverCap;
  }

  predicate BeforePrompt(st: Stage) { st.Start? || st.Building? || st.Simulating? }

  predicate BeforeToken(st: Stage) { BeforePrompt(st) || st.Asking? || st.Answered? }

  /** Nothing stands in the errand's way if the user answers after another answerAfter ms and the
      token is offered after another signAfter ms. */
  predicate Calm(c: Config, e: Errand, st: Stage, s: State, answerAfter: nat, signAfter: nat) {
    && Unlocked(e, s) && SignerTakes(c, e) && e.request' !in s.prompts && e.request' != e.request
    && answerAfter <= c.ttlMs && signAfter <= 299_000
    && (BeforePrompt(st) ==> e.request !in s.prompts && AsksForApproval(c, e, s, Some(ScoreSeen(c, e.intent, e.risk))))
    && (BeforeToken(st) ==> e.token !in s.issues)
    && (st.Asking? ==> e.request in s.prompts && s.now + answerAfter - s.prompts[e.request].at <= c.ttlMs)
    && (st.Holding? ==>
          e.token in s.issues && s.now + signAfter - s.issues[e.token].at <= 299_000)
    && (st.Offering? || st.Estimating? ==> Young(e, s))
    && (BeforeToken(st) || st.Holding? || st.Offering? ==>
          var more := if BeforePrompt(st) then 1 else 0;
          Policy.Decide(e.intent, c.policy, Policy.Options(None, Some(Recent(s, e.intent) + more)))
            == Policy.RequireApproval)
  }

  lemma CalmIsReady(c: Config, e: Errand, st: Stage, s: State, answerAfter: nat, signAfter: nat, n: nat)
    requires Calm(c, e, st, s, answerAfter, signAfter) && At(c, e, st, s, n)
    requires st.Asking? ==> answerAfter == 0
    ensures Ready(c, e, st, s)
  {
    hide Builders.WellFormed, Held, Open, SignedSince, Policy.Decide, Text.Lower;
  }

  lemma CalmWait(c: Config, e: Errand, st: Stage, s: State, answerAfter: nat, signAfter: nat)
    requires Calm(c, e, st, s, answerAfter, signAfter) && (st.Asking? || st.Holding?)
    ensures var ms := if st.Asking? then answerAfter else signAfter;
      var t := s.(now := s.now + ms, step := s.step + 1);
      Step(c, s, Advance(ms)) == Some(t) &&
      Calm(c, e, st, t, if st.Asking? then 0 else answerAfter, if st.Asking? then signAfter else 0)
  {
    hide Builders.WellFormed, Policy.Decide, Recent, Act;
    var ms := if st.Asking? then answerAfter else signAfter;
    var t := s.(now := s.now + ms, step := s.step + 1);
    AdvanceFrame(c, s, ms);
    RecentFades(s, t, e.intent);
    FewerRecent(e.intent, c.policy, Recent(s, e.intent), Recent(t, e.intent));
  }

  lemma RecentAfterTick(s: State, t: State, i: Intent)
    requires t.rate == RateLimit.Record(s.rate, i.wallet, s.now) && t.now == s.now
    ensures Recent(t, i) == Recent(s, i) + 1
  {
    RateLimit.RecordCounts(s.rate, i.wallet, i.wallet, s.now);
  }

  lemma CalmAsked(c: Config, e: Errand, st: Stage, s: State, pid: nat, answerAfter: nat, signAfter: nat)
    requires Calm(c, e, st, s, answerAfter, signAfter) && BeforePrompt(st)
    ensures Calm(c, e, Asking(pid), Asked(c, s, pid, e.intent, e.plan, e.request), answerAfter, signAfter)
  {
    hide Builders.WellFormed, Policy.Decide, Recent, RateLimit.Record;
    RecentAfterTick(s, Asked(c, s, pid, e.intent, e.plan, e.request), e.intent);
  }

  /** A state that differs in nothing Calm speaks of. */
  lemma CalmOn(c: Config, e: Errand, st: Stage, next: Stage, s: State, t: State, answerAfter: nat, signAfter: nat)
    requires Calm(c, e, st, s, answerAfter, signAfter)
    requires t.now == s.now && t.rate == s.rate && t.prompts == s.prompts && t.unlocked == s.unlocked
    requires (BeforePrompt(st) && BeforePrompt(next) && t.issues == s.issues) ||
             (st.Asking? && next.Answered? && t.issues == s.issues) ||
             (st.Holding? && next.Offering? && t.issues == s.issues) ||
             (st.Answered? && next.Holding? && e.token in t.issues && t.issues[e.token].at == t.now)
    ensures Calm(c, e, next, t, answerAfter, signAfter)
  {
    hide Builders.WellFormed, Policy.Decide, Text.Lower;
  }

  lemma CalmMove(c: Config, e: Errand, st: Stage, s: State, t: State, answerAfter: nat, signAfter: nat, n: nat)
    requires !st.Done? && Step(c, s, Move(c, e, st)) == Some(t)
    requires Inv(c, s) && Builds(c, e) && At(c, e, st, s, n) && Calm(c, e, st, s, answerAfter, signAfter)
    requires st.Asking? ==> answerAfter == 0
    requires st.Holding? ==> signAfter == 0
    ensures Calm(c, e, NextStage(c, e, st, s), t, answerAfter, signAfter)
  {
    hide Inv, Step, ReplyLabel, Builders.WellFormed, Builders.BuildFromIntent, Held, Calm, Pending.Add;
    hide RateLimit.Record;
    CalmIsReady(c, e, st, s, answerAfter, signAfter, n);
    var next := NextStage(c, e, st, s);
    match st
    case Start =>
      ReceiveApproveStep(c, s, e.intent);
      CalmOn(c, e, st, next, s, t, answerAfter, signAfter);
    case Building(pid) =>
      if c.rpc(e.intent.chainId) {
        SimulateStep(c, s, pid, e.intent, e.client, e.plan, e.request);
        CalmOn(c, e, st, next, s, t, answerAfter, signAfter);
      } else {
        AskAfterBuild(c, s, pid, e.intent, e.client, e.plan, e.request);
        CalmAsked(c, e, st, s, pid, answerAfter, signAfter);
      }
    case Simulating(pid) =>
      AskAfterSimulation(c, s, pid, e.intent, e.plan, e.risk, e.request);
      CalmAsked(c, e, st, s, pid, answerAfter, signAfter);
    case Asking(pid) =>
      PromptIsOpen(c, e, pid, s, n);
      ReplyStep(c, s, e.request, true);
      CalmOn(c, e, st, next, s, t, answerAfter, signAfter);
    case Answered(pid) =>
      TokenStep(c, s, pid, e.intent, e.plan, e.request, e.token);
      CalmOn(c, e, st, next, s, t, answerAfter, signAfter);
    case Holding =>
      ReceiveSignStep(c, s, e.intent, Some(e.token));
      CalmOn(c, e, st, next, s, t, answerAfter, signAfter);
    case Offering(pid) =>
      SignPlanStep(c, s, pid, e.intent, Some(e.token), e.client', e.plan, e.request');
      SignPlanFrame(c, s, pid, e.intent, Some(e.token), e.client', e.plan);
      CalmLate(c, e, st, next, s, t, answerAfter, signAfter);
    case Estimating(pid) =>
      EstimatedStep(c, s, pid, s.handlers[pid].job, e.extras);
      AuthorizeFrame(s, pid, s.handlers[pid].job, e.extras);
      CalmLate(c, e, st, next, s, t, answerAfter, signAfter);
    case AtSigner(pid) =>
      SigningTouches(c, s, pid);
      CalmLate(c, e, st, next, s, t, answerAfter, signAfter);
  }

  lemma SigningTouches(c: Config, s: State, pid: nat)
    requires Step(c, s, SigningReturned(pid, true)).Some?
    ensures var t := Step(c, s, SigningReturned(pid, true)).value;
      t.now == s.now && t.prompts == s.prompts && t.unlocked == s.unlocked && t.issues == s.issues
  {
    hide Act;
    SignatureFrame(c, s, pid, true);
  }

  /** Once the token has been offered only its age and the key matter. */
  lemma CalmLate(c: Config, e: Errand, st: Stage, next: Stage, s: State, t: State, answerAfter: nat, signAfter: nat)
    requires Calm(c, e, st, s, answerAfter, signAfter)
    requires t.now == s.now && t.prompts == s.prompts && t.unlocked == s.unlocked && t.issues == s.issues
    requires (st.Offering? && (next.Estimating? || next.AtSigner?)) || (st.Estimating? && next.AtSigner?) ||
             (st.AtSigner? && next.Done?)
    ensures Calm(c, e, next, t, answerAfter, signAfter)
  {
    hide Builders.WellFormed, Policy.Decide, Text.Lower, Recent;
  }

  lemma PromptIsOpen(c: Config, e: Errand, pid: nat, s: State, n: nat)
    requires Inv(c, s) && At(c, e, Asking(pid), s, n) && Ready(c, e, Asking(pid), s)
    ensures OpenPrompt(c, s, e.request)
  {
    hide AnswersOk, SettledOk, PromptsOk, IssuesOk, TokensOk, SpendingsOk, SignaturesOk, HandlersOk, PidsOk, HistoryOk;
    hide Builders.WellFormed;
  }

  /** The turns from a stage on: only the errand moves, after the given waits. */
  function Alone(c: Config, e: Errand, left: nat, answerAfter: nat, signAfter: nat): Turns
    decreases left, answerAfter + signAfter
  {
    var rpc := c.rpc(e.intent.chainId);
    if left == 0 then []
    else if left == (if rpc then 6 else 5) && answerAfter > 0 then
      [Some(Advance(answerAfter))] + Alone(c, e, left, 0, signAfter)
    else if left == (if rpc then 4 else 3) && signAfter > 0 then
      [Some(Advance(signAfter))] + Alone(c, e, left, answerAfter, 0)
    else [None] + Alone(c, e, left - 1, answerAfter, signAfter)
  }

  lemma {:induction false} AloneMoves(c: Config, e: Errand, left: nat, answerAfter: nat, signAfter: nat)
    ensures Own(Alone(c, e, left, answerAfter, signAfter)) == left
    decreases left, answerAfter + signAfter
  {
    var rpc := c.rpc(e.intent.chainId);
    if left == 0 {
    } else if left == (if rpc then 6 else 5) && answerAfter > 0 {
      AloneMoves(c, e, left, 0, signAfter);
      OwnFirst(Some(Advance(answerAfter)), Alone(c, e, left, 0, signAfter));
    } else if left == (if rpc then 4 else 3) && signAfter > 0 {
      AloneMoves(c, e, left, answerAfter, 0);
      OwnFirst(Some(Advance(signAfter)), Alone(c, e, left, answerAfter, 0));
    } else {
      AloneMoves(c, e, left - 1, answerAfter, signAfter);
      OwnFirst(None, Alone(c, e, left - 1, answerAfter, signAfter));
    }
  }

  lemma OwnFirst(turn: Option<Label>, turns: Turns)
    ensures Own([turn] + turns) == (if turn.None? then 1 else 0) + Own(turns)
  {
    assert ([turn] + turns)[1..] == turns;
  }

  lemma FairFirst(c: Config, e: Errand, st: Stage, s: State, turn: Option<Label>, turns: Turns)
    requires var next := Step(c, s, TurnLabel(c, e, st, turn));
      next.Some? && Fair(c, e, TurnStage(c, e, st, s, turn), next.value, turns) &&
      if turn.Some? then Spares(e, st, turn.value, next.value) else Ready(c, e, st, s)
    ensures Fair(c, e, st, s, [turn] + turns)
  {
    hide Step, Spares, Ready, TurnLabel, TurnStage;
    assert ([turn] + turns)[1..] == turns && ([turn] + turns)[0] == turn;
  }

  /** Which stages the numbers of moves left belong to. */
  lemma StageOf(c: Config, e: Errand, st: Stage, s: State, n: nat)
    requires At(c, e, st, s, n)
    ensures var rpc, left := c.rpc(e.intent.chainId), MovesLeft(c, e, st);
      (left == 0 <==> st.Done?) && (left == (if rpc then 6 else 5) <==> st.Asking?) &&
      (left == (if rpc then 4 else 3) <==> st.Holding?)
  {
    hide Held, Open, SignedSince, Builders.WellFormed;
  }

  lemma WaitSpares(c: Config, e: Errand, st: Stage, s: State, ms: nat, n: nat)
    requires At(c, e, st, s, n) && (st.Asking? || st.Holding?)
    ensures Spares(e, st, Advance(ms), s.(now := s.now + ms, step := s.step + 1))
  {
    hide Open, SignedSince, Builders.WellFormed;
  }

  lemma {:induction false} CalmIsFair(c: Config, e: Errand, st: Stage, s: State, answerAfter: nat,
                                        signAfter: nat, n: nat)
    requires Inv(c, s) && Builds(c, e) && At(c, e, st, s, n) && Calm(c, e, st, s, answerAfter, signAfter)
    ensures Fair(c, e, st, s, Alone(c, e, MovesLeft(c, e, st), answerAfter, signAfter))
    decreases MovesLeft(c, e, st), answerAfter + signAfter
  {
    hide Inv, Builds, At, Calm, Fair, Step, Ready, Spares, MovesLeft, NextStage, Move;
    StageOf(c, e, st, s, n);
    if st.Done? {
      NoTurns(c, e, st, s);
    } else if st.Asking? && answerAfter > 0 {
      CalmWait(c, e, st, s, answerAfter, signAfter);
      var t := Step(c, s, Advance(answerAfter)).value;
      WaitSpares(c, e, st, s, answerAfter, n);
      OthersStepKeepsAt(c, e, st, s, Advance(answerAfter), n);
      StepKeepsInv(c, s, Advance(answerAfter));
      CalmIsFair(c, e, st, t, 0, signAfter, n);
      FairFirst(c, e, st, s, Some(Advance(answerAfter)), Alone(c, e, MovesLeft(c, e, st), 0, signAfter));
    } else if st.Holding? && signAfter > 0 {
      CalmWait(c, e, st, s, answerAfter, signAfter);
      var t := Step(c, s, Advance(signAfter)).value;
      WaitSpares(c, e, st, s, signAfter, n);
      OthersStepKeepsAt(c, e, st, s, Advance(signAfter), n);
      StepKeepsInv(c, s, Advance(signAfter));
      CalmIsFair(c, e, st, t, answerAfter, 0, n);
      FairFirst(c, e, st, s, Some(Advance(signAfter)), Alone(c, e, MovesLeft(c, e, st), answerAfter, 0));
    } else {
      CalmIsReady(c, e, st, s, answerAfter, signAfter, n);
      MoveKeepsAt(c, e, st, s, n);
      FewerMoves(c, e, st, s, n);
      StepKeepsInv(c, s, Move(c, e, st));
      var t, next := Step(c, s, Move(c, e, st)).value, NextStage(c, e, st, s);
      CalmMove(c, e, st, s, t, answerAfter, signAfter, n);
      CalmIsFair(c, e, next, t, answerAfter, signAfter, n);
      FairFirst(c, e, st, s, None, Alone(c, e, MovesLeft(c, e, next), answerAfter, signAfter));
    }
  }

  lemma NoTurns(c: Config, e: Errand, st: Stage, s: State)
    ensures Fair(c, e, st, s, [])
  {
  }

  /** When nobody interferes, what must be so can be seen at the start: the names are new, the key
      is unlocked, and the policy asks for approval at the prompt and, with one more recent
      transaction, without the score. */
  lemma UndisturbedIntentIsSigned(c: Config, run: seq<Label>, e: Errand, answerAfter: nat, signAfter: nat)
    requires Exec(c, run).Some? && Builds(c, e)
    requires Calm(c, e, Start, Exec(c, run).value, answerAfter, signAfter)
    ensures var s := Exec(c, run).value;
      var t := Exec(c, run + Script(c, e, Start, s, Alone(c, e, MovesLeft(c, e, Start), answerAfter, signAfter)));
      t.Some? && SignedSince(c, e, t.value, |s.signatures|)
  {
    hide Exec, Inv, Fair, Builds, Script, Alone, Calm, MovesLeft, SignedSince;
    var s := Exec(c, run).value;
    RunKeepsInv(c, run);
    CalmIsFair(c, e, Start, s, answerAfter, signAfter, |s.signatures|);
    AloneMoves(c, e, MovesLeft(c, e, Start), answerAfter, signAfter);
    ApprovedIntentIsSigned(c, run, e, Alone(c, e, MovesLeft(c, e, Start), answerAfter, signAfter));
  }
}
