/** Which steps ask the policy, what each verdict costs and what it leads to. */
module Decisions {
  import opened Types
  import opened Protocol
  import opened Frames
  import Moves
  import Text
  import Policy
  import Tokens
  import Audit
  import RateLimit
  import Pending
  import Builders

  /** A question to the policy: an intent, and the risk score if the asker knows one. */
  datatype Question = Question(intent: ValidIntent, risk: Option<int>)

  predicate Building(s: State, pid: nat) {
    pid in s.handlers &&
    (s.handlers[pid].BuildBuilding? || s.handlers[pid].ApproveBuilding? || s.handlers[pid].SignBuilding?)
  }

  /** tx/build asks when the request comes in; approve-request asks with the score of the simulation,
      or with 0 once the plan is built where there is no client for the chain; sign-and-send asks
      without a score once the plan is built. */
  function Asked(c: Config, s: State, l: Label): Option<Question> {
    match l
    case ReceiveBuild(i) => Some(Question(i, None))
    case Simulated(pid, Some(risk), _) =>
      if pid in s.handlers && s.handlers[pid].ApproveSimulating? then Some(Question(s.handlers[pid].intent, Some(risk)))
      else None
    case Built(pid, client, _) =>
      if !Building(s, pid) || Builders.BuildFromIntent(c.keccak, s.handlers[pid].intent, client).Err? then None
      else AskedOnPlan(c, s.handlers[pid])
    case _ => None
  }

  function AskedOnPlan(c: Config, h: Handler): Option<Question> {
    match h
    case ApproveBuilding(i) => if c.rpc(i.chainId) then None else Some(Question(i, Some(0)))
    case SignBuilding(i, _) => Some(Question(i, None))
    case _ => None
  }

  /** The answer, with the wallet's ticks of the last hour counted in the record of all of them. */
  function Verdict(c: Config, s: State, q: Question): Policy.Verdict {
    var recent := RateLimit.CountIn(s.rate.ever, q.intent.wallet, s.now - 3_599_999, s.now + 1);
    Policy.Decide(q.intent, c.policy, Policy.Options(q.risk, Some(recent)))
  }

  // ---- the count is exact ----

  /** No tick lies in the future. */
  ghost predicate Past(ticks: seq<Audit.Tick>, now: nat) { forall k | 0 <= k < |ticks| :: ticks[k].at <= now }

  lemma {:induction false} CountIsCountIn(ticks: seq<Audit.Tick>, wallet: string, since: int, now: nat)
    requires Past(ticks, now)
    ensures Audit.Count(ticks, wallet, since) == RateLimit.CountIn(ticks, wallet, since + 1, now + 1)
  {
    if ticks != [] { CountIsCountIn(ticks[..|ticks| - 1], wallet, since, now); }
  }

  /** The table counts like the record, and the record lies in the past. */
  ghost predicate Counted(s: State) { RateLimit.Faithful(s.rate, s.now) && Past(s.rate.ever, s.now) }

  lemma RecentIsExact(c: Config, s: State, q: Question)
    requires Counted(s)
    ensures Decision(c, s, q.intent, q.risk) == Verdict(c, s, q)
  {
    hide Policy.Decide, Audit.Count, RateLimit.CountIn;
    CountIsCountIn(s.rate.ever, q.intent.wallet, s.now - 3_600_000, s.now);
  }

  // ---- every decision costs one tick ----

  /** What the step does to the record of ticks. */
  function Cost(c: Config, s: State, l: Label): seq<Audit.Tick> { Price(c, s, Asked(c, s, l)) }

  function Price(c: Config, s: State, asked: Option<Question>): seq<Audit.Tick> {
    match asked
    case Some(q) =>
      if Decision(c, s, q.intent, q.risk) == Policy.Deny then [] else [Audit.Tick(q.intent.wallet, s.now)]
    case None => []
  }

  predicate Charged(s: State, rate: RateLimit.Ledger, cost: seq<Audit.Tick>) {
    rate == RateLimit.Ledger(s.rate.table + cost, s.rate.ever + cost)
  }

  lemma ChargeCosts(c: Config, s: State, i: ValidIntent, risk: Option<int>)
    ensures var cost := if Decision(c, s, i, risk) == Policy.Deny then [] else [Audit.Tick(i.wallet, s.now)];
      Charged(s, Charge(c, s, i, risk).rate, cost)
  {
    hide Decision, Builders.WellFormed;
    assert s.rate.table + [] == s.rate.table && s.rate.ever + [] == s.rate.ever;
    if Decision(c, s, i, risk) == Policy.Deny {} else {}
  }

  lemma Free(s: State)
    ensures Charged(s, s.rate, [])
  {
    assert s.rate.table + [] == s.rate.table && s.rate.ever + [] == s.rate.ever;
  }

  lemma PlanCosts(c: Config, s: State, pid: nat, h: Handler, client: Option<Builders.OneInchReply>, plan: BuildPlan,
                  newId: string)
    requires h.BuildBuilding? || h.ApproveBuilding? || h.SignBuilding?
    ensures Charged(s, OnPlan(c, s, pid, h, client, plan, newId).rate, Price(c, s, AskedOnPlan(c, h)))
  {
    hide Builders.WellFormed, OnRiskKnown, OnSignPlan, Charge, Charged, Decision;
    Free(s);
    match h
    case BuildBuilding(_) =>
    case ApproveBuilding(i) =>
      if c.rpc(i.chainId) {
      } else {
        RiskKnownFrame(c, s, pid, i, plan, 0, newId);
        ChargeCosts(c, s, i, Some(0));
      }
    case SignBuilding(i, offered) =>
      SignPlanFrame(c, s, pid, i, offered, client, plan);
      ChargeCosts(c, s, i, None);
  }

  lemma BuiltCosts(c: Config, s: State, pid: nat, client: Option<Builders.OneInchReply>, newId: string)
    requires Building(s, pid) && newId !in s.prompts
    ensures Charged(s, OnBuilt(c, s, pid, s.handlers[pid], client, newId).rate, Cost(c, s, Built(pid, client, newId)))
  {
    hide Builders.WellFormed, Builders.BuildFromIntent, OnPlan, AskedOnPlan, Charged, Decision;
    Free(s);
    var h := s.handlers[pid];
    match Builders.BuildFromIntent(c.keccak, h.intent, client)
    case Err(_) =>
    case Ok(plan) => PlanCosts(c, s, pid, h, client, plan, newId);
  }

  lemma SimulatedCosts(c: Config, s: State, pid: nat, risk: Option<nat>, newId: string)
    requires Act(c, s, Simulated(pid, risk, newId)).Some?
    ensures Charged(s, Act(c, s, Simulated(pid, risk, newId)).value.rate, Cost(c, s, Simulated(pid, risk, newId)))
  {
    hide Builders.WellFormed, OnRiskKnown, Charge, Charged, Decision;
    Free(s);
    match risk
    case None =>
    case Some(score) =>
      RiskKnownFrame(c, s, pid, s.handlers[pid].intent, s.handlers[pid].plan, score, newId);
      ChargeCosts(c, s, s.handlers[pid].intent, Some(score));
  }

  lemma BuildCosts(c: Config, s: State, i: ValidIntent)
    ensures Act(c, s, ReceiveBuild(i)).Some?
    ensures Charged(s, Act(c, s, ReceiveBuild(i)).value.rate, Cost(c, s, ReceiveBuild(i)))
  {
    hide Builders.WellFormed, OnReceiveBuild, Charge, Charged, Decision;
    ReceiveBuildFrame(c, s, i);
    ChargeCosts(c, s, i, None);
  }

  lemma OthersCostNothing(c: Config, s: State, l: Label)
    requires Act(c, s, l).Some? && !l.ReceiveBuild? && !l.Built? && !l.Simulated? && !l.RateCleanup?
    ensures Act(c, s, l).value.rate == s.rate && Asked(c, s, l) == None
  {
    hide Act, Builders.WellFormed;
    if l.PromptSettled? {
      IssueFrame(c, s, l.pid, l.freshToken);
    } else if l.SigningReturned? {
      SignatureFrame(c, s, l.pid, l.ok);
    } else if Environment(l) {
      EnvironmentFrame(c, s, l);
    } else {
      WorkFrame(c, s, l);
    }
  }

  lemma BuiltIsBuilding(c: Config, s: State, pid: nat, client: Option<Builders.OneInchReply>, newId: string)
    requires Act(c, s, Built(pid, client, newId)).Some?
    ensures Building(s, pid) && newId !in s.prompts
    ensures Act(c, s, Built(pid, client, newId)).value == OnBuilt(c, s, pid, s.handlers[pid], client, newId)
  {
    hide Builders.WellFormed, OnBuilt;
  }

  lemma StepCosts(c: Config, s: State, l: Label)
    requires Act(c, s, l).Some? && !l.RateCleanup?
    ensures Charged(s, Act(c, s, l).value.rate, Cost(c, s, l))
  {
    hide Act, Builders.WellFormed, Charged, Decision;
    Free(s);
    match l
    case ReceiveBuild(i) => BuildCosts(c, s, i);
    case Built(pid, client, newId) =>
      BuiltIsBuilding(c, s, pid, client, newId);
      BuiltCosts(c, s, pid, client, newId);
    case Simulated(pid, risk, newId) => SimulatedCosts(c, s, pid, risk, newId);
    case _ => OthersCostNothing(c, s, l);
  }

  lemma SweepFrame(c: Config, s: State, window: nat)
    requires Act(c, s, RateCleanup(window)).Some?
    ensures window >= 3_600_000
    ensures Act(c, s, RateCleanup(window)).value == s.(rate := RateLimit.Sweep(s.rate, window, s.now))
  {
    hide Builders.WellFormed;
  }

  lemma CostIsFaithful(s: State, rate: RateLimit.Ledger, cost: seq<Audit.Tick>, now: nat)
    requires Counted(s) && Charged(s, rate, cost) && s.now <= now
    requires forall k | 0 <= k < |cost| :: cost[k].at == s.now
    ensures RateLimit.Faithful(rate, now) && Past(rate.ever, now)
  {
    hide Audit.Count;
    forall w, since | since >= now - 3_600_000
      ensures Audit.Count(rate.table, w, since) == Audit.Count(rate.ever, w, since) {
      Audit.CountConcat(s.rate.table, cost, w, since);
      Audit.CountConcat(s.rate.ever, cost, w, since);
    }
  }

  lemma SweepIsFaithful(l: RateLimit.Ledger, window: nat, now: nat)
    requires RateLimit.Faithful(l, now) && window >= 3_600_000
    ensures RateLimit.Faithful(RateLimit.Sweep(l, window, now), now)
  {
    forall w, since | since >= now - 3_600_000
      ensures Audit.Count(RateLimit.Sweep(l, window, now).table, w, since) == Audit.Count(l.ever, w, since) {
      Audit.KeepLeavesCount(l.table, now - window, w, since);
    }
  }

  lemma StepKeepsCount(c: Config, s: State, l: Label)
    requires Counted(s) && Act(c, s, l).Some?
    ensures Counted(Act(c, s, l).value)
  {
    hide Act, Builders.WellFormed, Charged, RateLimit.Faithful;
    TimePasses(c, s, l);
    match l
    case RateCleanup(window) =>
      SweepFrame(c, s, window);
      SweepIsFaithful(s.rate, window, s.now);
    case _ =>
      StepCosts(c, s, l);
      CostIsFaithful(s, Act(c, s, l).value.rate, Cost(c, s, l), Act(c, s, l).value.now);
  }

  lemma NothingCounted()
    ensures Counted(INIT)
  {
  }

  lemma {:induction false} RunIsCounted(c: Config, run: seq<Label>)
    requires Exec(c, run).Some?
    ensures Counted(Exec(c, run).value)
  {
    hide Act, Counted;
    if run == [] {
      NothingCounted();
    } else {
      RunIsCounted(c, run[..|run| - 1]);
      StepKeepsCount(c, Exec(c, run[..|run| - 1]).value, run[|run| - 1]);
      CountedOn(Act(c, Exec(c, run[..|run| - 1]).value, run[|run| - 1]).value);
    }
  }

  lemma CountedOn(s: State)
    requires Counted(s)
    ensures Counted(s.(step := s.step + 1))
  {
  }

  /** In every run each step that asks the policy and is not denied records one tick, of its wallet
      and its time, and no other step records any.  The answer is that of the policy on the exact
      number of the wallet's ticks of the last hour, whatever cleanups there were. */
  lemma DecisionsAreCharged(c: Config, run: seq<Label>, l: Label)
    requires Exec(c, run).Some? && Step(c, Exec(c, run).value, l).Some?
    ensures var s, t := Exec(c, run).value, Step(c, Exec(c, run).value, l).value;
      t.rate.ever == s.rate.ever +
        match Asked(c, s, l)
        case Some(q) => if Verdict(c, s, q) == Policy.Deny then [] else [Audit.Tick(q.intent.wallet, s.now)]
        case None => []
  {
    hide Exec, Act, Builders.WellFormed, Counted, Decision, Verdict, Asked;
    RunIsCounted(c, run);
    var s := Exec(c, run).value;
    var asked := Asked(c, s, l);
    if asked.Some? { RecentIsExact(c, s, asked.value); }
    if l.RateCleanup? {
      SweepFrame(c, s, l.window);
      NoQuestion(c, s, l);
      assert s.rate.ever + [] == s.rate.ever;
    } else {
      StepCosts(c, s, l);
    }
  }

  lemma NoQuestion(c: Config, s: State, l: Label)
    requires l.RateCleanup?
    ensures Asked(c, s, l) == None
  {
  }

  // ---- what a verdict leads to ----

  /** The prompt of a step, if there is one: approve-request shows its plan when approval is asked for. */
  function Prompted(c: Config, s: State, l: Label): Option<Prompt> {
    match l
    case Simulated(pid, Some(risk), _) =>
      if pid in s.handlers && s.handlers[pid].ApproveSimulating?
      then PromptOn(c, s, pid, Question(s.handlers[pid].intent, Some(risk)), s.handlers[pid].plan) else None
    case Built(pid, client, _) => if Building(s, pid) then PromptOnBuilt(c, s, pid, s.handlers[pid], client) else None
    case _ => None
  }

  function PromptOnBuilt(c: Config, s: State, pid: nat, h: Handler, client: Option<Builders.OneInchReply>)
    : Option<Prompt>
    requires h.BuildBuilding? || h.ApproveBuilding? || h.SignBuilding?
  {
    match Builders.BuildFromIntent(c.keccak, h.intent, client)
    case Err(_) => None
    case Ok(plan) =>
      if h.ApproveBuilding? && !c.rpc(h.intent.chainId) then PromptOn(c, s, pid, Question(h.intent, Some(0)), plan)
      else None
  }

  function PromptOn(c: Config, s: State, pid: nat, q: Question, plan: BuildPlan): Option<Prompt> {
    if Decision(c, s, q.intent, q.risk) != Policy.RequireApproval then None
    else Some(Prompt(pid, q.intent.id, plan.tx, plan.txRequestHash, s.now, s.step))
  }

  /** Exactly then the prompt is recorded, and its handler waits for it; otherwise the handler is gone. */
  predicate PromptsOn(s: State, t: State, pid: nat, r: string, prompted: Option<Prompt>) {
    match prompted
    case Some(p) => t.prompts == s.prompts[r := p] && pid in t.handlers && t.handlers[pid].ApprovePrompting? &&
                    t.handlers[pid].request == r
    case None => t.prompts == s.prompts
  }

  lemma RiskKnownPrompts(c: Config, s: State, pid: nat, i: ValidIntent, plan: BuildPlan, risk: nat, newId: string)
    ensures var t := OnRiskKnown(c, s, pid, i, plan, risk, newId);
      if Decision(c, s, i, Some(risk)) == Policy.RequireApproval then
        PromptsOn(s, t, pid, newId, Some(Prompt(pid, i.id, plan.tx, plan.txRequestHash, s.now, s.step))) &&
        t.pending == if c.web then Pending.Add(s.pending, newId, Pending.Summary(i.id, plan.txRequestHash), s.now)
                     else s.pending
      else t.prompts == s.prompts && pid !in t.handlers
  {
    hide Decision, Charge, Builders.WellFormed, Pending.Add;
    ChargeFrame(c, s, i, Some(risk));
    if Decision(c, s, i, Some(risk)) == Policy.RequireApproval {} else {}
  }

  lemma SimulatedPrompts(c: Config, s: State, pid: nat, risk: Option<nat>, newId: string)
    requires Act(c, s, Simulated(pid, risk, newId)).Some?
    ensures PromptsOn(s, Act(c, s, Simulated(pid, risk, newId)).value, pid, newId,
                      Prompted(c, s, Simulated(pid, risk, newId)))
  {
    hide Builders.WellFormed, OnRiskKnown, Decision, Builders.BuildFromIntent;
    match risk
    case None =>
    case Some(score) => RiskKnownPrompts(c, s, pid, s.handlers[pid].intent, s.handlers[pid].plan, score, newId);
  }

  lemma PlanPromptsOn(c: Config, s: State, pid: nat, h: Handler, client: Option<Builders.OneInchReply>, plan: BuildPlan,
                      newId: string)
    requires h.BuildBuilding? || h.ApproveBuilding? || h.SignBuilding?
    ensures var t := OnPlan(c, s, pid, h, client, plan, newId);
      if h.ApproveBuilding? && !c.rpc(h.intent.chainId) &&
         Decision(c, s, h.intent, Some(0)) == Policy.RequireApproval then
        PromptsOn(s, t, pid, newId, Some(Prompt(pid, h.intent.id, plan.tx, plan.txRequestHash, s.now, s.step)))
      else t.prompts == s.prompts
  {
    hide Builders.WellFormed, OnRiskKnown, OnSignPlan, Decision, PromptsOn;
    match h
    case BuildBuilding(_) =>
    case ApproveBuilding(i) => if c.rpc(i.chainId) {} else { RiskKnownPrompts(c, s, pid, i, plan, 0, newId); }
    case SignBuilding(i, offered) => SignPlanFrame(c, s, pid, i, offered, client, plan);
  }

  lemma BuiltPrompts(c: Config, s: State, pid: nat, client: Option<Builders.OneInchReply>, newId: string)
    requires Act(c, s, Built(pid, client, newId)).Some?
    ensures PromptsOn(s, Act(c, s, Built(pid, client, newId)).value, pid, newId,
                      Prompted(c, s, Built(pid, client, newId)))
  {
    hide Act, Builders.WellFormed, PromptOnBuilt, OnBuilt, PromptsOn;
    BuiltIsBuilding(c, s, pid, client, newId);
    OnBuiltPrompts(c, s, pid, s.handlers[pid], client, newId);
  }

  lemma OnBuiltPrompts(c: Config, s: State, pid: nat, h: Handler, client: Option<Builders.OneInchReply>, newId: string)
    requires h.BuildBuilding? || h.ApproveBuilding? || h.SignBuilding?
    ensures PromptsOn(s, OnBuilt(c, s, pid, h, client, newId), pid, newId, PromptOnBuilt(c, s, pid, h, client))
  {
    hide Builders.WellFormed, Builders.BuildFromIntent, OnPlan, Decision;
    match Builders.BuildFromIntent(c.keccak, h.intent, client)
    case Err(_) =>
    case Ok(plan) => PlanPromptsOn(c, s, pid, h, client, plan, newId);
  }

  lemma OthersPromptNothing(c: Config, s: State, l: Label)
    requires Act(c, s, l).Some? && !l.Built? && !l.Simulated?
    ensures Act(c, s, l).value.prompts == s.prompts
  {
    hide Act, Builders.WellFormed;
    if l.PromptSettled? {
      IssueFrame(c, s, l.pid, l.freshToken);
    } else if l.SigningReturned? {
      SignatureFrame(c, s, l.pid, l.ok);
    } else if Environment(l) {
      EnvironmentFrame(c, s, l);
    } else {
      WorkFrame(c, s, l);
    }
  }

  /** In every run a step prompts the user exactly when it is one of approve-request, asks the
      policy, and is told to ask for approval; the prompt shows the plan of that request, and its
      handler waits for the answer. */
  lemma PromptedIff(c: Config, run: seq<Label>, l: Label)
    requires Exec(c, run).Some? && Step(c, Exec(c, run).value, l).Some?
    ensures var s, t := Exec(c, run).value, Step(c, Exec(c, run).value, l).value;
      Decided(c, s, l) &&
      match Prompted(c, s, l)
      case None => t.prompts == s.prompts
      case Some(p) => t.prompts == s.prompts[l.freshRequest := p] && l.pid in t.handlers &&
                      t.handlers[l.pid].ApprovePrompting? && t.handlers[l.pid].request == l.freshRequest
  {
    hide Exec, Act, Builders.WellFormed, Prompted, Decided;
    var s := Exec(c, run).value;
    AskedIsDecided(c, run, l);
    match l
    case Built(pid, client, newId) => BuiltPrompts(c, s, pid, client, newId);
    case Simulated(pid, risk, newId) => SimulatedPrompts(c, s, pid, risk, newId);
    case _ =>
      OthersPromptNothing(c, s, l);
      assert Prompted(c, s, l) == None by { NoPrompt(c, s, l); }
  }

  /** The decision on a question is the verdict on the exact count. */
  predicate Decided(c: Config, s: State, l: Label) {
    Asked(c, s, l).Some? ==>
      var q := Asked(c, s, l).value; Decision(c, s, q.intent, q.risk) == Verdict(c, s, q)
  }

  lemma AskedIsDecided(c: Config, run: seq<Label>, l: Label)
    requires Exec(c, run).Some?
    ensures Decided(c, Exec(c, run).value, l)
  {
    hide Exec, Counted, Asked, Decision, Verdict, Builders.WellFormed;
    RunIsCounted(c, run);
    var s := Exec(c, run).value;
    if Asked(c, s, l).Some? { RecentIsExact(c, s, Asked(c, s, l).value); }
  }

  lemma NoPrompt(c: Config, s: State, l: Label)
    requires !l.Built? && !l.Simulated?
    ensures Prompted(c, s, l) == None
  {
  }

  /** sign-and-send goes on past the policy check exactly when it is allowed, or approval is asked for
      and the token offered is usable; without a client for the chain the gates follow at once, so
      the key must be there too, and the token is used up whether or not it is. */
  lemma SigningGoesOnIff(c: Config, s: State, pid: nat, i: ValidIntent, offered: Option<string>,
                         client: Option<Builders.OneInchReply>, plan: BuildPlan, newId: string)
    requires pid in s.handlers && s.handlers[pid] == SignBuilding(i, offered) && newId !in s.prompts
    requires Builders.BuildFromIntent(c.keccak, i, client) == Ok(plan)
    ensures Step(c, s, Built(pid, client, newId)).Some?
    ensures var t, v := Step(c, s, Built(pid, client, newId)).value, Decision(c, s, i, None);
      var usable := offered.Some? && Tokens.Usable(s.tokens, offered.value, i.id, plan.txRequestHash, s.now);
      var goesOn := v == Policy.Allow || (v == Policy.RequireApproval && usable);
      (pid in t.handlers <==> goesOn && (c.rpc(i.chainId) || Text.Lower(i.wallet) in s.unlocked)) &&
      t.tokens == if !c.rpc(i.chainId) && v == Policy.RequireApproval && usable
                  then s.tokens[offered.value := s.tokens[offered.value].(consumed := true)] else s.tokens
  {
    hide Builders.WellFormed, Builders.BuildFromIntent, Step, OnSignPlan, Text.Lower, Decision, Tokens.Usable;
    Moves.SignPlanStep(c, s, pid, i, offered, client, plan, newId);
    PlanGoesOn(c, s, pid, i, offered, client, plan);
  }

  lemma PlanGoesOn(c: Config, s: State, pid: nat, i: ValidIntent, offered: Option<string>,
                   client: Option<Builders.OneInchReply>, plan: BuildPlan)
    ensures var t, v := OnSignPlan(c, s, pid, i, offered, client, plan), Decision(c, s, i, None);
      var usable := offered.Some? && Tokens.Usable(s.tokens, offered.value, i.id, plan.txRequestHash, s.now);
      var goesOn := v == Policy.Allow || (v == Policy.RequireApproval && usable);
      (pid in t.handlers <==> goesOn && (c.rpc(i.chainId) || Text.Lower(i.wallet) in s.unlocked)) &&
      t.tokens == if !c.rpc(i.chainId) && v == Policy.RequireApproval && usable
                  then s.tokens[offered.value := s.tokens[offered.value].(consumed := true)] else s.tokens
  {
    hide Builders.WellFormed, OnAuthorize, Text.Lower, Charge, Decision, Recent;
    var u := Charge(c, s, i, None);
    ChargeFrame(c, s, i, None);
    if Stops(c, s, i, offered, plan) {
    } else {
      var job := NewJob(c, s, i, offered, client, plan);
      ProceedFrame(c, u, pid, job);
      if c.rpc(i.chainId) {} else { AuthorizeTables(u, pid, job, None); }
    }
  }
}
