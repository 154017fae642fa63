/** The recorded history is true to the run: nothing recorded is ever rewritten, and the step of
    an event is the position in the run of the label that caused it. */
module History {
  import opened Types
  import opened Protocol
  import opened Frames
  import opened Safety
  import Tokens
  import Pending
  import Builders
  import Wallet

  // ---- what one step adds ----

  ghost predicate Extends<V>(a: map<string, V>, b: map<string, V>) {
    forall k :: k in a ==> k in b && b[k] == a[k]
  }

  predicate AnswerAt(l: Label, request: string, approved: bool) {
    l == WebDecide(request, approved) || l == PromptAnswered(request, approved)
  }

  predicate PromptAt(l: Label, request: string, pid: nat) {
    (l.Built? || l.Simulated?) && l.pid == pid && l.freshRequest == request
  }

  predicate SpendAt(l: Label, pid: nat) {
    (l.Built? || l.Estimated?) && l.pid == pid
  }

  ghost predicate NewAnswers(s: State, answers: map<string, Answer>, l: Label) {
    Extends(s.answers, answers) &&
    forall r :: r in answers && r !in s.answers ==>
      answers[r].at == s.now && answers[r].step == s.step && AnswerAt(l, r, answers[r].approved)
  }

  ghost predicate NewPrompts(s: State, prompts: map<string, Prompt>, l: Label) {
    Extends(s.prompts, prompts) &&
    forall r :: r in prompts && r !in s.prompts ==>
      prompts[r].at == s.now && prompts[r].step == s.step && PromptAt(l, r, prompts[r].pid)
  }

  ghost predicate NewIssues(s: State, issues: map<string, Issue>, l: Label) {
    Extends(s.issues, issues) &&
    forall t :: t in issues && t !in s.issues ==>
      issues[t].at == s.now && issues[t].step == s.step && l.PromptSettled? && l.freshToken == t
  }

  ghost predicate NewSpendings(s: State, spendings: map<string, Spending>, l: Label) {
    Extends(s.spendings, spendings) &&
    forall t :: t in spendings && t !in s.spendings ==>
      spendings[t].at == s.now && spendings[t].step == s.step && SpendAt(l, spendings[t].pid)
  }

  ghost predicate NewSignatures(s: State, signatures: seq<Signature>, l: Label) {
    signatures == s.signatures ||
    (|signatures| == |s.signatures| + 1 && signatures[..|s.signatures|] == s.signatures &&
     signatures[|s.signatures|].step == s.step && l == SigningReturned(signatures[|s.signatures|].pid, true))
  }

  /** The step with label l rewrites nothing, and what it records is its own. */
  ghost predicate Adds(s: State, t: State, l: Label) {
    && NewAnswers(s, t.answers, l)
    && NewPrompts(s, t.prompts, l)
    && NewIssues(s, t.issues, l)
    && NewSpendings(s, t.spendings, l)
    && NewSignatures(s, t.signatures, l)
  }

  lemma AddsNothing(s: State, l: Label)
    ensures Adds(s, s, l)
  {
  }

  /** What a step does to the tokens and to the record of their spending: nothing is rewritten,
      what is spent is spent by pid now, and unspent rows stay. */
  ghost predicate Pays(s: State, t: State, pid: nat) {
    PaysOn(s, t.tokens, t.spendings, pid)
  }

  ghost predicate PaysOn(s: State, tokens: Tokens.Table, spendings: map<string, Spending>, pid: nat) {
    && Extends(s.spendings, spendings)
    && (forall k :: k in spendings && k !in s.spendings ==> spendings[k] == Spending(pid, s.now, s.step))
    && (forall k :: k in s.tokens && k !in spendings ==> k in tokens && tokens[k] == s.tokens[k])
  }

  lemma PaysNothing(s: State, t: State, pid: nat)
    requires t.tokens == s.tokens && t.spendings == s.spendings
    ensures Pays(s, t, pid)
  {
  }

  lemma PaysLater(s: State, u: State, t: State, pid: nat)
    requires Pays(u, t, pid) && u.tokens == s.tokens && u.spendings == s.spendings && u.now == s.now && u.step == s.step
    ensures Pays(s, t, pid)
  {
  }

  lemma SpendPays(s: State, t: string, pid: nat)
    requires t !in s.spendings
    ensures PaysOn(s, Tokens.Consume(s.tokens, t), s.spendings[t := Spending(pid, s.now, s.step)], pid)
  {
  }

  /** A token is spent only while it has not been spent before. */
  lemma AuthorizePays(c: Config, s: State, pid: nat, job: Job, extras: Option<Extras>)
    requires Inv(c, s)
    ensures Pays(s, OnAuthorize(s, pid, job, extras), pid)
  {
    hide Inv, OnAuthorize, Builders.WellFormed, Tokens.Validate, Tokens.Consume, PaysOn;
    AuthorizeTables(s, pid, job, extras);
    var q := Wallet.SignRequest(job.intent.id, job.intent.wallet, job.plan.txRequestHash, Some(job.verdict), job.token);
    if Wallet.SpendsToken(s.tokens, q, s.now) {
      TokenCanBeSpent(c, s, job.token.value, job.intent.id, job.plan.txRequestHash);
      SpendPays(s, job.token.value, pid);
    } else {
      PaysNothing(s, s, pid);
    }
  }

  lemma TokenCanBeSpent(c: Config, s: State, t: string, intentId: string, hash: string)
    requires Inv(c, s) && Tokens.Validate(s.tokens, t, intentId, hash, s.now) == None
    ensures t !in s.spendings
  {
    hide PendingOk, AnswersOk, SettledOk, PromptsOk, IssuesOk, SignaturesOk, HandlersOk, PidsOk;
    assert t in s.tokens && t in s.issues;
    ValidTokenIsUnspent(s, t, intentId, hash);
  }

  lemma ProceedPays(c: Config, s: State, pid: nat, job: Job)
    requires Inv(c, s)
    ensures Pays(s, Proceed(c, s, pid, job), pid)
  {
    hide Inv, Builders.WellFormed, OnAuthorize, Pays;
    if c.rpc(job.intent.chainId) {
      PaysNothing(s, Proceed(c, s, pid, job), pid);
    } else {
      AuthorizePays(c, s, pid, job, None);
    }
  }

  lemma SignPlanPays(c: Config, s: State, pid: nat, i: ValidIntent, offered: Option<string>,
                     client: Option<Builders.OneInchReply>, plan: BuildPlan)
    requires Inv(c, s)
    ensures Pays(s, OnSignPlan(c, s, pid, i, offered, client, plan), pid)
  {
    hide Inv, Builders.WellFormed, Proceed, Stops, NewJob, Charge, Pays;
    var u := Charge(c, s, i, None);
    ChargeKeeps(c, s, i, None);
    if Stops(c, s, i, offered, plan) {
      PaysNothing(s, OnSignPlan(c, s, pid, i, offered, client, plan), pid);
    } else {
      ProceedPays(c, u, pid, NewJob(c, s, i, offered, client, plan));
      PaysLater(s, u, OnSignPlan(c, s, pid, i, offered, client, plan), pid);
    }
  }

  lemma PlanPays(c: Config, s: State, pid: nat, h: Handler, client: Option<Builders.OneInchReply>, plan: BuildPlan,
                 newId: string)
    requires Inv(c, s) && (h.BuildBuilding? || h.ApproveBuilding? || h.SignBuilding?)
    ensures Pays(s, OnPlan(c, s, pid, h, client, plan, newId), pid)
  {
    hide Inv, Builders.WellFormed, OnSignPlan, OnRiskKnown, Pays;
    match h
    case BuildBuilding(_) => PaysNothing(s, Finish(s, pid), pid);
    case ApproveBuilding(i) =>
      if c.rpc(i.chainId) {
        PaysNothing(s, Suspend(s, pid, ApproveSimulating(i, plan)), pid);
      } else {
        RiskKnownFrame(c, s, pid, i, plan, 0, newId);
        PaysNothing(s, OnRiskKnown(c, s, pid, i, plan, 0, newId), pid);
      }
    case SignBuilding(i, offered) => SignPlanPays(c, s, pid, i, offered, client, plan);
  }

  lemma BuiltPays(c: Config, s: State, pid: nat, h: Handler, client: Option<Builders.OneInchReply>, newId: string)
    requires Inv(c, s) && (h.BuildBuilding? || h.ApproveBuilding? || h.SignBuilding?)
    ensures Pays(s, OnBuilt(c, s, pid, h, client, newId), pid)
  {
    hide Inv, Builders.WellFormed, Builders.BuildFromIntent, OnPlan, Pays;
    match Builders.BuildFromIntent(c.keccak, h.intent, client)
    case Err(_) => PaysNothing(s, OnBuilt(c, s, pid, h, client, newId), pid);
    case Ok(plan) => PlanPays(c, s, pid, h, client, plan, newId);
  }

  lemma StepPays(c: Config, s: State, l: Label)
    requires Inv(c, s) && Act(c, s, l).Some? && (l.Built? || l.Estimated?)
    ensures Pays(s, Act(c, s, l).value, l.pid)
  {
    hide Inv, Builders.WellFormed, OnAuthorize, OnBuilt, Pays;
    match l
    case Estimated(pid, extras) => AuthorizePays(c, s, pid, s.handlers[pid].job, extras);
    case Built(pid, client, newId) => BuiltPays(c, s, pid, s.handlers[pid], client, newId);
  }

  lemma SpendingsOfPayer(s: State, t: State, l: Label)
    requires (l.Built? || l.Estimated?) && Pays(s, t, l.pid)
    ensures NewSpendings(s, t.spendings, l)
  {
  }

  lemma PromptsOfStep(s: State, prompts: map<string, Prompt>, l: Label)
    requires (l.Built? || l.Simulated?) && l.freshRequest !in s.prompts
    requires prompts == s.prompts || PromptAdded(s, prompts, l.pid, l.freshRequest)
    ensures NewPrompts(s, prompts, l)
  {
  }

  lemma HandlerAdds(c: Config, s: State, l: Label)
    requires Inv(c, s) && Act(c, s, l).Some? && (l.Built? || l.Simulated? || l.Estimated?)
    ensures Adds(s, Act(c, s, l).value, l)
  {
    hide Act, Inv, NewAnswers, NewPrompts, NewIssues, NewSpendings, NewSignatures, PromptAdded, Pays;
    AddsNothing(s, l);
    NewNames(c, s, l);
    match l
    case Built(pid, _, newId) =>
      BuiltStepFrame(c, s, l);
      PromptsOfStep(s, Act(c, s, l).value.prompts, l);
      StepPays(c, s, l);
      SpendingsOfPayer(s, Act(c, s, l).value, l);
    case Estimated(_, _) =>
      WorkFrame(c, s, l);
      StepPays(c, s, l);
      SpendingsOfPayer(s, Act(c, s, l).value, l);
    case Simulated(pid, risk, newId) =>
      SimulatedFrame(c, s, pid, risk, newId);
      PromptsOfStep(s, Act(c, s, l).value.prompts, l);
  }

  lemma DecisionAdds(c: Config, s: State, l: Label)
    requires Act(c, s, l).Some? && (l.WebDecide? || l.PromptAnswered?) && Inv(c, s)
    ensures NewAnswers(s, Act(c, s, l).value.answers, l)
  {
    hide AnswersOk, SettledOk, PromptsOk, IssuesOk, TokensOk, SpendingsOk, SignaturesOk, HandlersOk, PidsOk, HistoryOk;
    hide Waiting, Builders.WellFormed, Pending.Decide;
    match l
    case WebDecide(r, _) => if Pending.DecideSucceeds(s.pending, r, s.now, c.ttlMs) {} else {}
    case PromptAnswered(_, _) =>
  }

  lemma EndAdds(c: Config, s: State, l: Label)
    requires Act(c, s, l).Some? && (l.PromptSettled? || l.SigningReturned?)
    ensures Adds(s, Act(c, s, l).value, l)
  {
    hide Act, NewAnswers, NewPrompts, NewSpendings;
    AddsNothing(s, l);
    NewNames(c, s, l);
    match l
    case PromptSettled(pid, newId) => IssueFrame(c, s, pid, newId);
    case SigningReturned(pid, ok) =>
      SignatureFrame(c, s, pid, ok);
      if ok {} else { assert s.signatures + [] == s.signatures; }
  }

  lemma StepAdds(c: Config, s: State, l: Label)
    requires Inv(c, s) && Act(c, s, l).Some?
    ensures Adds(s, Act(c, s, l).value, l)
  {
    hide Act, Inv, NewAnswers, NewPrompts, NewIssues, NewSpendings, NewSignatures;
    AddsNothing(s, l);
    if l.Built? || l.Simulated? || l.Estimated? {
      HandlerAdds(c, s, l);
    } else if l.PromptSettled? || l.SigningReturned? {
      EndAdds(c, s, l);
    } else if Environment(l) {
      EnvironmentFrame(c, s, l);
      if l.WebDecide? || l.PromptAnswered? { DecisionAdds(c, s, l); }
    } else {
      WorkFrame(c, s, l);
    }
  }

  // ---- nothing recorded is rewritten ----

  ghost predicate Grows(s: State, t: State) {
    && Extends(s.prompts, t.prompts)
    && Extends(s.answers, t.answers)
    && Extends(s.issues, t.issues)
    && Extends(s.spendings, t.spendings)
    && s.signatures <= t.signatures
  }

  lemma StepGrows(c: Config, s: State, l: Label)
    requires Inv(c, s) && Step(c, s, l).Some?
    ensures Grows(s, Step(c, s, l).value)
  {
    hide Act, Inv, Extends;
    StepAdds(c, s, l);
  }

  lemma GrowsOn(s: State, t: State, u: State)
    requires Grows(s, t) && Grows(t, u)
    ensures Grows(s, u)
  {
  }

  lemma GrowsFrom(s: State)
    ensures Grows(s, s)
  {
  }

  /** In every run, whatever was recorded after its first n steps stays as it was recorded. */
  lemma {:induction false} HistoryOnlyGrows(c: Config, run: seq<Label>, n: nat)
    requires Exec(c, run).Some? && n <= |run|
    ensures Exec(c, run[..n]).Some? && Grows(Exec(c, run[..n]).value, Exec(c, run).value)
  {
    hide Step, Inv, Grows;
    if n == |run| {
      assert run[..n] == run;
      GrowsFrom(Exec(c, run).value);
    } else {
      var before, l := run[..|run| - 1], run[|run| - 1];
      HistoryOnlyGrows(c, before, n);
      assert before[..n] == run[..n];
      RunKeepsInv(c, before);
      StepGrows(c, Exec(c, before).value, l);
      GrowsOn(Exec(c, run[..n]).value, Exec(c, before).value, Exec(c, run).value);
    }
  }

  // ---- every recorded event has its label ----

  /** The time that has passed after a run, read off its labels. */
  function Clock(run: seq<Label>): nat {
    if run == [] then 0
    else Clock(run[..|run| - 1]) + Lapse(run[|run| - 1])
  }

  /** at is the time of the step-th label of the run. */
  predicate Stamped(run: seq<Label>, at: nat, step: nat) {
    step < |run| && at == Clock(run[..step])
  }

  ghost predicate AnswersCaused(run: seq<Label>, answers: map<string, Answer>) {
    forall r :: r in answers ==>
      Stamped(run, answers[r].at, answers[r].step) && AnswerAt(run[answers[r].step], r, answers[r].approved)
  }

  ghost predicate PromptsCaused(run: seq<Label>, prompts: map<string, Prompt>) {
    forall r :: r in prompts ==>
      Stamped(run, prompts[r].at, prompts[r].step) && PromptAt(run[prompts[r].step], r, prompts[r].pid)
  }

  ghost predicate IssuesCaused(run: seq<Label>, issues: map<string, Issue>) {
    forall t :: t in issues ==>
      Stamped(run, issues[t].at, issues[t].step) &&
      run[issues[t].step].PromptSettled? && run[issues[t].step].freshToken == t
  }

  ghost predicate SpendingsCaused(run: seq<Label>, spendings: map<string, Spending>) {
    forall t :: t in spendings ==>
      Stamped(run, spendings[t].at, spendings[t].step) && SpendAt(run[spendings[t].step], spendings[t].pid)
  }

  ghost predicate SignaturesCaused(run: seq<Label>, signatures: seq<Signature>) {
    forall i :: 0 <= i < |signatures| ==>
      signatures[i].step < |run| && run[signatures[i].step] == SigningReturned(signatures[i].pid, true)
  }

  ghost predicate Caused(run: seq<Label>, s: State) {
    && s.step == |run| && s.now == Clock(run)
    && AnswersCaused(run, s.answers)
    && PromptsCaused(run, s.prompts)
    && IssuesCaused(run, s.issues)
    && SpendingsCaused(run, s.spendings)
    && SignaturesCaused(run, s.signatures)
  }

  lemma StampStays(run: seq<Label>, l: Label, at: nat, step: nat)
    requires Stamped(run, at, step)
    ensures Stamped(run + [l], at, step) && (run + [l])[step] == run[step]
  {
    assert (run + [l])[..step] == run[..step];
  }

  lemma StampNow(run: seq<Label>, l: Label)
    ensures Stamped(run + [l], Clock(run), |run|) && (run + [l])[|run|] == l
  {
    assert (run + [l])[..|run|] == run;
  }

  lemma AnswersCausedOn(run: seq<Label>, s: State, l: Label, answers: map<string, Answer>)
    requires s.step == |run| && s.now == Clock(run) && AnswersCaused(run, s.answers) && NewAnswers(s, answers, l)
    ensures AnswersCaused(run + [l], answers)
  {
    hide Clock, AnswerAt;
    StampNow(run, l);
    forall r | r in s.answers ensures Stamped(run + [l], s.answers[r].at, s.answers[r].step) &&
        AnswerAt((run + [l])[s.answers[r].step], r, s.answers[r].approved) {
      StampStays(run, l, s.answers[r].at, s.answers[r].step);
    }
  }

  lemma PromptsCausedOn(run: seq<Label>, s: State, l: Label, prompts: map<string, Prompt>)
    requires s.step == |run| && s.now == Clock(run) && PromptsCaused(run, s.prompts) && NewPrompts(s, prompts, l)
    ensures PromptsCaused(run + [l], prompts)
  {
    hide Clock, PromptAt;
    StampNow(run, l);
    forall r | r in s.prompts ensures Stamped(run + [l], s.prompts[r].at, s.prompts[r].step) &&
        PromptAt((run + [l])[s.prompts[r].step], r, s.prompts[r].pid) {
      StampStays(run, l, s.prompts[r].at, s.prompts[r].step);
    }
  }

  lemma IssuesCausedOn(run: seq<Label>, s: State, l: Label, issues: map<string, Issue>)
    requires s.step == |run| && s.now == Clock(run) && IssuesCaused(run, s.issues) && NewIssues(s, issues, l)
    ensures IssuesCaused(run + [l], issues)
  {
    hide Clock;
    StampNow(run, l);
    forall t | t in s.issues ensures Stamped(run + [l], s.issues[t].at, s.issues[t].step) &&
        (run + [l])[s.issues[t].step] == run[s.issues[t].step] {
      StampStays(run, l, s.issues[t].at, s.issues[t].step);
    }
  }

  lemma SpendingsCausedOn(run: seq<Label>, s: State, l: Label, spendings: map<string, Spending>)
    requires s.step == |run| && s.now == Clock(run)
    requires SpendingsCaused(run, s.spendings) && NewSpendings(s, spendings, l)
    ensures SpendingsCaused(run + [l], spendings)
  {
    hide Clock, SpendAt;
    StampNow(run, l);
    forall t | t in s.spendings ensures Stamped(run + [l], s.spendings[t].at, s.spendings[t].step) &&
        SpendAt((run + [l])[s.spendings[t].step], s.spendings[t].pid) {
      StampStays(run, l, s.spendings[t].at, s.spendings[t].step);
    }
  }

  lemma SignaturesCausedOn(run: seq<Label>, s: State, l: Label, signatures: seq<Signature>)
    requires s.step == |run| && SignaturesCaused(run, s.signatures) && NewSignatures(s, signatures, l)
    ensures SignaturesCaused(run + [l], signatures)
  {
    forall i | 0 <= i < |signatures|
      ensures signatures[i].step < |run + [l]| &&
              (run + [l])[signatures[i].step] == SigningReturned(signatures[i].pid, true) {
      if i < |s.signatures| { assert signatures[..|s.signatures|][i] == s.signatures[i]; }
    }
  }

  lemma ClockStep(c: Config, s: State, run: seq<Label>, l: Label)
    requires Act(c, s, l).Some? && s.now == Clock(run)
    ensures Act(c, s, l).value.now == Clock(run + [l]) && Act(c, s, l).value.step == s.step
  {
    hide Act;
    assert (run + [l])[..|run|] == run;
    TimePasses(c, s, l);
  }

  lemma StepCaused(c: Config, run: seq<Label>, s: State, l: Label)
    requires Caused(run, s) && Step(c, s, l).Some? && Inv(c, s)
    ensures Caused(run + [l], Step(c, s, l).value)
  {
    hide Act, Inv, NewAnswers, NewPrompts, NewIssues, NewSpendings, NewSignatures;
    hide AnswersCaused, PromptsCaused, IssuesCaused, SpendingsCaused, SignaturesCaused, Clock;
    var t := Act(c, s, l).value;
    StepAdds(c, s, l);
    ClockStep(c, s, run, l);
    AnswersCausedOn(run, s, l, t.answers);
    PromptsCausedOn(run, s, l, t.prompts);
    IssuesCausedOn(run, s, l, t.issues);
    SpendingsCausedOn(run, s, l, t.spendings);
    SignaturesCausedOn(run, s, l, t.signatures);
  }

  /** In every run each recorded prompt, answer, issue, spending and signature has the time and the
      position of the step that caused it. */
  lemma {:induction false} RunCaused(c: Config, run: seq<Label>)
    requires Exec(c, run).Some?
    ensures Caused(run, Exec(c, run).value)
  {
    hide Step, Caused, Inv;
    if run == [] {
      InitialCaused();
    } else {
      var before, l := run[..|run| - 1], run[|run| - 1];
      RunCaused(c, before);
      RunKeepsInv(c, before);
      StepCaused(c, before, Exec(c, before).value, l);
      assert run == before + [l];
    }
  }

  lemma InitialCaused()
    ensures Caused([], INIT)
  {
  }

  // ---- approvals are steps of the run ----

  /** Step n of the run is the user's yes to a prompt that stands behind the signature, and the
      signature itself is made at a later step. */
  ghost predicate ApprovedAt(c: Config, run: seq<Label>, s: State, n: nat, sig: Signature) {
    && n < sig.step < |run| && run[sig.step] == SigningReturned(sig.pid, true)
    && exists r :: Backs(c, s, r, sig) && s.answers[r].step == n && AnswerAt(run[n], r, true)
  }

  ghost predicate ApprovalTrace(c: Config, run: seq<Label>, s: State, f: map<nat, nat>) {
    && (forall i :: i in f <==> 0 <= i < |s.signatures| && NeedsApproval(s.signatures[i].job))
    && (forall i :: i in f ==> ApprovedAt(c, run, s, f[i], s.signatures[i]))
    && (forall i, k :: i in f && k in f && f[i] == f[k] ==> i == k)
  }

  lemma AnswerIsAStep(c: Config, run: seq<Label>, s: State, r: string, i: nat)
    requires Caused(run, s) && i < |s.signatures| && Backs(c, s, r, s.signatures[i])
    ensures ApprovedAt(c, run, s, s.answers[r].step, s.signatures[i])
    ensures AnswerAt(run[s.answers[r].step], r, true)
  {
    hide Builders.WellFormed;
  }

  /** In every run, the signatures made under a require_approval decision map one-to-one to
      earlier steps of that run, each of which is the user's yes to a prompt for the same intent
      and the same transaction. */
  lemma EverySignatureHasItsYes(c: Config, run: seq<Label>)
    requires Exec(c, run).Some?
    ensures exists f: map<nat, nat> :: ApprovalTrace(c, run, Exec(c, run).value, f)
  {
    hide Exec, Caused, ApprovalMap, ApprovalTrace;
    SignaturesAreApproved(c, run);
    RunCaused(c, run);
    var s := Exec(c, run).value;
    var g :| ApprovalMap(c, s, g);
    TraceOf(c, run, s, g);
  }

  lemma TraceOf(c: Config, run: seq<Label>, s: State, g: map<nat, string>)
    requires Caused(run, s) && ApprovalMap(c, s, g)
    ensures exists f: map<nat, nat> :: ApprovalTrace(c, run, s, f)
  {
    hide Backs, Caused, ApprovedAt, NeedsApproval, Builders.WellFormed;
    forall i | i in g
      ensures g[i] in s.answers && ApprovedAt(c, run, s, s.answers[g[i]].step, s.signatures[i])
      ensures s.answers[g[i]].step < |run| && AnswerAt(run[s.answers[g[i]].step], g[i], true)
    {
      AnswerOfBacker(c, s, g[i], s.signatures[i]);
      AnswerIsAStep(c, run, s, g[i], i);
      StepOfApproved(c, run, s, s.answers[g[i]].step, s.signatures[i]);
    }
    var f := map i | i in g :: s.answers[g[i]].step;
    assert ApprovalTrace(c, run, s, f);
  }

  lemma AnswerOfBacker(c: Config, s: State, r: string, sig: Signature)
    requires Backs(c, s, r, sig)
    ensures r in s.answers
  {
  }

  lemma StepOfApproved(c: Config, run: seq<Label>, s: State, n: nat, sig: Signature)
    requires ApprovedAt(c, run, s, n, sig)
    ensures n < |run|
  {
  }
}
