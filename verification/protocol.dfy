/** The approval-to-signature protocol as a transition system.  One label is one atomic step:
    the code a handler runs between two awaits, or one action of the environment. */
module Protocol {
  import opened Types
  import Text
  import Policy
  import Tokens
  import RateLimit
  import Pending
  import Abi
  import Builders
  import Wallet

  const APPROVAL_TTL_SECONDS: nat := 300

  /** web tells whether prompts go through the pending store; rpc which chains have a client. */
  datatype Config = Config(policy: PolicyConfig, web: bool, ttlMs: nat, rpc: nat -> bool, keccak: string -> string)

  /** Intents the request schema lets through. */
  type ValidIntent = i: Intent | Builders.WellFormed(i)
    witness Builders.NullIntent()

  /** Nonce, gas limit and fees filled in just before signing. */
  datatype Extras = Extras(nonce: nat, gas: nat, maxFeePerGas: nat, maxPriorityFeePerGas: nat)

  /** What the signing library takes: a recipient in lower case or in its checksum spelling, or none
      for a contract creation; hexadecimal digits after the first two characters of the data; a value
      that is not negative; fees that fit, the tip not above the cap unless the cap is zero. */
  predicate Signable(keccak: string -> string, tx: TxRequest, extras: Option<Extras>) {
    && (tx.to == "" || (Text.IsAddress(tx.to) && Builders.Encodable(keccak, tx.to)))
    && (|tx.data| >= 2 ==> Text.AllHex(tx.data[2..]))
    && tx.value >= 0
    && (extras.Some? ==> FeesFit(extras.value))
  }

  predicate FeesFit(e: Extras) {
    Abi.FitsUint256(e.maxFeePerGas) && (e.maxFeePerGas > 0 ==> e.maxPriorityFeePerGas <= e.maxFeePerGas)
  }

  /** What sign-and-send knows once it has decided to go on: the plan, the aggregator reply it
      was built from, the decision and the recent count it was taken on, and the token. */
  datatype Job = Job(intent: ValidIntent, client: Option<Builders.OneInchReply>, plan: BuildPlan,
                     recent: nat, verdict: Policy.Verdict, token: Option<string>)

  /** A request in flight, at the await it is suspended on. */
  datatype Handler =
    | BuildBuilding(intent: ValidIntent)
    | ApproveBuilding(intent: ValidIntent)
    | ApproveSimulating(intent: ValidIntent, plan: BuildPlan)
    | ApprovePrompting(intent: ValidIntent, plan: BuildPlan, request: string)
    | SignBuilding(intent: ValidIntent, offered: Option<string>)
    | SignEstimating(job: Job)
    | SignSigning(job: Job, extras: Option<Extras>, key: string)
    | SignBroadcasting(intent: ValidIntent)

  // ---- history ----

  /** step numbers order events strictly. */
  datatype Prompt = Prompt(pid: nat, intentId: string, tx: TxRequest, hash: string, at: nat, step: nat)
  datatype Answer = Answer(approved: bool, at: nat, step: nat)
  datatype Issue = Issue(request: string, intentId: string, hash: string, wallet: string, at: nat, step: nat)
  datatype Spending = Spending(pid: nat, at: nat, step: nat)
  datatype Signature = Signature(pid: nat, job: Job, extras: Option<Extras>, key: string, step: nat)

  datatype State = State(
    now: nat,
    step: nat,
    nextPid: nat,
    tokens: Tokens.Table,
    rate: RateLimit.Ledger,
    pending: Pending.Store,
    settled: map<string, bool>,
    unlocked: map<string, string>,
    handlers: map<nat, Handler>,
    prompts: map<string, Prompt>,
    answers: map<string, Answer>,
    issues: map<string, Issue>,
    spendings: map<string, Spending>,
    signatures: seq<Signature>)

  const INIT := State(0, 0, 0, map[], RateLimit.Ledger([], []), map[], map[], map[], map[],
                      map[], map[], map[], map[], [])

  datatype Label =
    | Advance(ms: nat)
    | TokenCleanup
    | PendingCleanup
    | RateCleanup(window: nat)
    | WebDecide(request: string, approved: bool)
    | PromptAnswered(request: string, approved: bool)
    | ClosePending
    | KeyUnlocked(address: string, key: string)
    | KeyLocked(address: string)
    | Restart
    | ReceiveBuild(intent: ValidIntent)
    | ReceiveApprove(intent: ValidIntent)
    | ReceiveSign(intent: ValidIntent, offered: Option<string>)
    | Built(pid: nat, client: Option<Builders.OneInchReply>, freshRequest: string)
    | Simulated(pid: nat, riskScore: Option<nat>, freshRequest: string)
    | PromptSettled(pid: nat, freshToken: string)
    | Estimated(pid: nat, extras: Option<Extras>)
    | SigningReturned(pid: nat, ok: bool)
    | Sent(pid: nat)

  // ---- the code between awaits ----

  function Finish(s: State, pid: nat): State { s.(handlers := s.handlers - {pid}) }

  function Suspend(s: State, pid: nat, h: Handler): State { s.(handlers := s.handlers[pid := h]) }

  function Recent(s: State, i: Intent): nat { RateLimit.Recent(s.rate, i.wallet, s.now) }

  /** evaluatePolicy, its answer: the recent count goes in. */
  function Decision(c: Config, s: State, i: Intent, risk: Option<int>): Policy.Verdict {
    Policy.Decide(i, c.policy, Policy.Options(risk, Some(Recent(s, i))))
  }

  /** evaluatePolicy, its effect: unless denied a tick is recorded. */
  function Charge(c: Config, s: State, i: Intent, risk: Option<int>): State {
    if Decision(c, s, i, risk) == Policy.Deny then s
    else s.(rate := RateLimit.Record(s.rate, i.wallet, s.now))
  }

  function Receive(s: State, h: Handler): State {
    Suspend(s, s.nextPid, h).(nextPid := s.nextPid + 1)
  }

  /** tx/build decides before its first await. */
  function OnReceiveBuild(c: Config, s: State, i: ValidIntent): State {
    if Decision(c, s, i, None) == Policy.Deny then s else Receive(Charge(c, s, i, None), BuildBuilding(i))
  }

  /** approve-request from the policy check to the prompt. */
  function OnRiskKnown(c: Config, s: State, pid: nat, i: ValidIntent, plan: BuildPlan, risk: nat, newId: string)
    : State
  {
    var t := Charge(c, s, i, Some(risk));
    if Decision(c, s, i, Some(risk)) != Policy.RequireApproval then Finish(t, pid)
    else t.(
      handlers := t.handlers[pid := ApprovePrompting(i, plan, newId)],
      prompts := t.prompts[newId := Prompt(pid, i.id, plan.tx, plan.txRequestHash, t.now, t.step)],
      pending := if c.web then Pending.Add(t.pending, newId, Pending.Summary(i.id, plan.txRequestHash), t.now)
                 else t.pending)
  }

  /** WalletService.sign up to the signing call. */
  function OnAuthorize(s: State, pid: nat, job: Job, extras: Option<Extras>): State {
    var q := Wallet.SignRequest(job.intent.id, job.intent.wallet, job.plan.txRequestHash, Some(job.verdict), job.token);
    var t := s.(tokens := Wallet.TokensAfter(s.tokens, q, s.now),
                spendings := if Wallet.SpendsToken(s.tokens, q, s.now)
                             then s.spendings[job.token.value := Spending(pid, s.now, s.step)] else s.spendings);
    match Wallet.Gate(s.tokens, s.unlocked, q, s.now)
    case Err(_) => Finish(t, pid)
    case Ok(key) => Suspend(t, pid, SignSigning(job, extras, key))
  }

  /** sign-and-send stops at the policy check, or at the first look at the token. */
  predicate Stops(c: Config, s: State, i: ValidIntent, offered: Option<string>, plan: BuildPlan) {
    match Decision(c, s, i, None)
    case Deny => true
    case Allow => false
    case RequireApproval =>
      offered.None? || Tokens.Validate(s.tokens, offered.value, i.id, plan.txRequestHash, s.now).Some?
  }

  /** The token goes on to the signer only where the decision asks for one. */
  function NewJob(c: Config, s: State, i: ValidIntent, offered: Option<string>, client: Option<Builders.OneInchReply>,
                  plan: BuildPlan): Job {
    var verdict := Decision(c, s, i, None);
    Job(i, client, plan, Recent(s, i), verdict, if verdict == Policy.RequireApproval then offered else None)
  }

  /** With a client for the chain the fees are looked up first. */
  function Proceed(c: Config, s: State, pid: nat, job: Job): State {
    if c.rpc(job.intent.chainId) then Suspend(s, pid, SignEstimating(job)) else OnAuthorize(s, pid, job, None)
  }

  /** sign-and-send from the built plan to its next await. */
  function OnSignPlan(c: Config, s: State, pid: nat, i: ValidIntent, offered: Option<string>,
                      client: Option<Builders.OneInchReply>, plan: BuildPlan): State {
    if Stops(c, s, i, offered, plan) then Finish(Charge(c, s, i, None), pid)
    else Proceed(c, Charge(c, s, i, None), pid, NewJob(c, s, i, offered, client, plan))
  }

  function OnPlan(c: Config, s: State, pid: nat, h: Handler, client: Option<Builders.OneInchReply>, plan: BuildPlan,
                  newId: string): State
    requires h.BuildBuilding? || h.ApproveBuilding? || h.SignBuilding?
  {
    match h
    case BuildBuilding(_) => Finish(s, pid)
    case ApproveBuilding(i) =>
      if c.rpc(i.chainId) then Suspend(s, pid, ApproveSimulating(i, plan))
      else OnRiskKnown(c, s, pid, i, plan, 0, newId)
    case SignBuilding(i, offered) => OnSignPlan(c, s, pid, i, offered, client, plan)
  }

  function OnBuilt(c: Config, s: State, pid: nat, h: Handler, client: Option<Builders.OneInchReply>, newId: string)
    : State
    requires h.BuildBuilding? || h.ApproveBuilding? || h.SignBuilding?
  {
    match Builders.BuildFromIntent(c.keccak, h.intent, client)
    case Err(_) => Finish(s, pid)
    case Ok(plan) => OnPlan(c, s, pid, h, client, plan, newId)
  }

  /** requestApproval after its prompt: issue a token, or give up. */
  function OnPromptSettled(s: State, pid: nat, h: Handler, newId: string): State
    requires h.ApprovePrompting? && h.request in s.settled
  {
    if !s.settled[h.request] then Finish(s, pid)
    else s.(
      handlers := s.handlers - {pid},
      tokens := Tokens.Issue(s.tokens, newId, h.intent.id, h.plan.txRequestHash, APPROVAL_TTL_SECONDS, s.now),
      issues := s.issues[newId := Issue(h.request, h.intent.id, h.plan.txRequestHash, h.intent.wallet, s.now, s.step)])
  }

  function OnSigned(c: Config, s: State, pid: nat, h: Handler): State
    requires h.SignSigning?
  {
    s.(signatures := s.signatures + [Signature(pid, h.job, h.extras, h.key, s.step)],
       handlers := if c.rpc(h.job.intent.chainId) then s.handlers[pid := SignBroadcasting(h.job.intent)]
                   else s.handlers - {pid})
  }

  function OnAnswer(s: State, request: string, approved: bool): State {
    s.(answers := s.answers[request := Answer(approved, s.now, s.step)], settled := s.settled[request := approved])
  }

  function Refuse(s: State, kept: Pending.Store): State {
    s.(pending := kept, settled := s.settled + map r | r in s.pending.Keys - kept.Keys :: false)
  }

  predicate Waiting(s: State, request: string) {
    exists p | p in s.handlers :: s.handlers[p].ApprovePrompting? && s.handlers[p].request == request
  }

  /** The state after the labelled step; None when the step is not possible. */
  function Act(c: Config, s: State, l: Label): Option<State> {
    match l
    case Advance(ms) => Some(s.(now := s.now + ms))
    case TokenCleanup => Some(s.(tokens := Tokens.Cleanup(s.tokens, s.now)))
    case PendingCleanup => Some(Refuse(s, Pending.Cleanup(s.pending, s.now, c.ttlMs)))
    case RateCleanup(window) =>
      if window < RateLimit.RATE_LIMIT_WINDOW_MS then None
      else Some(s.(rate := RateLimit.Sweep(s.rate, window, s.now)))
    case WebDecide(r, approved) =>
      var t := s.(pending := Pending.Decide(s.pending, r));
      if Pending.DecideSucceeds(s.pending, r, s.now, c.ttlMs) then Some(OnAnswer(t, r, approved)) else Some(t)
    case PromptAnswered(r, approved) =>
      if c.web || r in s.settled || r in s.answers || !Waiting(s, r) then None else Some(OnAnswer(s, r, approved))
    case ClosePending => Some(Refuse(s, map[]))
    case KeyUnlocked(address, key) => Some(s.(unlocked := s.unlocked[Text.Lower(address) := key]))
    case KeyLocked(address) => Some(s.(unlocked := s.unlocked - {Text.Lower(address)}))
    case Restart => Some(s.(handlers := map[], pending := map[], settled := map[], unlocked := map[]))
    case ReceiveBuild(i) => Some(OnReceiveBuild(c, s, i))
    case ReceiveApprove(i) => Some(Receive(s, ApproveBuilding(i)))
    case ReceiveSign(i, offered) => Some(Receive(s, SignBuilding(i, offered)))
    case Built(pid, client, newId) =>
      if pid !in s.handlers || newId in s.prompts then None
      else
        var h := s.handlers[pid];
        if h.BuildBuilding? || h.ApproveBuilding? || h.SignBuilding? then Some(OnBuilt(c, s, pid, h, client, newId))
        else None
    case Simulated(pid, riskScore, newId) =>
      if pid !in s.handlers || !s.handlers[pid].ApproveSimulating? || newId in s.prompts then None
      else if riskScore.None? then Some(Finish(s, pid))
      else
        var h := s.handlers[pid];
        Some(OnRiskKnown(c, s, pid, h.intent, h.plan, riskScore.value, newId))
    case PromptSettled(pid, newId) =>
      if pid !in s.handlers || !s.handlers[pid].ApprovePrompting? || s.handlers[pid].request !in s.settled ||
         newId in s.issues then None
      else Some(OnPromptSettled(s, pid, s.handlers[pid], newId))
    case Estimated(pid, extras) =>
      if pid !in s.handlers || !s.handlers[pid].SignEstimating? then None
      else Some(OnAuthorize(s, pid, s.handlers[pid].job, extras))
    case SigningReturned(pid, ok) =>
      if pid !in s.handlers || !s.handlers[pid].SignSigning? then None
      else if !ok then Some(Finish(s, pid))
      else if !Signable(c.keccak, s.handlers[pid].job.plan.tx, s.handlers[pid].extras) then None
      else Some(OnSigned(c, s, pid, s.handlers[pid]))
    case Sent(pid) =>
      if pid !in s.handlers || !s.handlers[pid].SignBroadcasting? then None else Some(Finish(s, pid))
  }

  function Step(c: Config, s: State, l: Label): Option<State> {
    match Act(c, s, l)
    case Some(t) => Some(t.(step := t.step + 1))
    case None => None
  }

  /** The state a run of labels ends in. */
  function Exec(c: Config, run: seq<Label>): Option<State> {
    if run == [] then Some(INIT)
    else match Exec(c, run[..|run| - 1])
      case Some(s) => Step(c, s, run[|run| - 1])
      case None => None
  }
}
