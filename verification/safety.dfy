/** What every run of the protocol keeps, and what follows for its signatures. */
module Safety {
  import opened Types
  import opened Protocol
  import Policy
  import Tokens
  import Pending
  import Abi
  import Builders
  import Wallet

  predicate NeedsApproval(job: Job) { job.verdict == Policy.RequireApproval }

  // ---- the invariant, one predicate per table ----

  ghost predicate PendingOk(pending: Pending.Store, prompts: map<string, Prompt>, answers: map<string, Answer>) {
    forall r :: r in pending ==>
      r in prompts && r !in answers && !pending[r].decided &&
      pending[r].createdAt == prompts[r].at &&
      pending[r].summary == Pending.Summary(prompts[r].intentId, prompts[r].hash)
  }

  ghost predicate AnswersOk(c: Config, answers: map<string, Answer>, prompts: map<string, Prompt>) {
    forall r :: r in answers ==>
      r in prompts && prompts[r].step < answers[r].step &&
      (c.web ==> answers[r].at - prompts[r].at <= c.ttlMs)
  }

  ghost predicate SettledOk(settled: map<string, bool>, answers: map<string, Answer>, prompts: map<string, Prompt>) {
    forall r :: r in settled ==> r in prompts && (settled[r] ==> r in answers && answers[r].approved)
  }

  ghost predicate PromptsOk(c: Config, prompts: map<string, Prompt>) {
    forall r :: r in prompts ==> prompts[r].hash == Builders.TxRequestHash(c.keccak, prompts[r].tx)
  }

  /** Every token goes back to a prompt answered true. */
  ghost predicate IssuesBacked(issues: map<string, Issue>, answers: map<string, Answer>, prompts: map<string, Prompt>) {
    forall t :: t in issues ==>
      issues[t].request in answers && answers[issues[t].request].approved &&
      answers[issues[t].request].step < issues[t].step &&
      issues[t].request in prompts &&
      prompts[issues[t].request].intentId == issues[t].intentId &&
      prompts[issues[t].request].hash == issues[t].hash
  }

  /** No prompt yields two tokens. */
  ghost predicate OneTokenPerPrompt(issues: map<string, Issue>) {
    forall t, u :: t in issues && u in issues && issues[t].request == issues[u].request ==> t == u
  }

  ghost predicate IssuesOk(issues: map<string, Issue>, answers: map<string, Answer>, prompts: map<string, Prompt>) {
    IssuesBacked(issues, answers, prompts) && OneTokenPerPrompt(issues)
  }

  ghost predicate RowOk(row: Tokens.TokenRow, issue: Issue) {
    row.intentId == issue.intentId && row.txRequestHash == issue.hash &&
    row.issuedAt == Tokens.Seconds(issue.at) && row.ttlSeconds == APPROVAL_TTL_SECONDS
  }

  ghost predicate TokensOk(tokens: Tokens.Table, issues: map<string, Issue>) {
    forall t :: t in tokens ==> t in issues && RowOk(tokens[t], issues[t])
  }

  /** A spent token was issued, was spent in time and is never unconsumed in the table. */
  ghost predicate SpendingsOk(spendings: map<string, Spending>, issues: map<string, Issue>, tokens: Tokens.Table) {
    forall t :: t in spendings ==>
      t in issues && (t in tokens ==> tokens[t].consumed) &&
      spendings[t].at - issues[t].at < 1000 * APPROVAL_TTL_SECONDS
  }

  /** The job was decided by this policy on this intent and its plan was built from it. */
  ghost predicate JobSound(c: Config, job: Job) {
    && Builders.BuildFromIntent(c.keccak, job.intent, job.client) == Ok(job.plan)
    && Policy.Decide(job.intent, c.policy, Policy.Options(None, Some(job.recent))) == job.verdict
    && job.verdict != Policy.Deny
    && (job.verdict == Policy.RequireApproval <==> job.token.Some?)
  }

  /** The handler pid spent the token its job needed. */
  ghost predicate PaidFor(pid: nat, job: Job, spendings: map<string, Spending>, issues: map<string, Issue>) {
    job.verdict == Policy.RequireApproval ==>
      && job.token.Some? && job.token.value in spendings && spendings[job.token.value].pid == pid
      && job.token.value in issues
      && issues[job.token.value].intentId == job.intent.id
      && issues[job.token.value].hash == job.plan.txRequestHash
  }

  predicate IssuedBefore(job: Job, issues: map<string, Issue>, step: nat) {
    NeedsApproval(job) && job.token.Some? && job.token.value in issues ==> issues[job.token.value].step < step
  }

  ghost predicate PromptingOk(h: Handler, prompts: map<string, Prompt>, issues: map<string, Issue>)
    requires h.ApprovePrompting?
  {
    && h.request in prompts
    && prompts[h.request].intentId == h.intent.id
    && prompts[h.request].hash == h.plan.txRequestHash
    && (forall t :: t in issues ==> issues[t].request != h.request)
  }

  ghost predicate HandlerOk(c: Config, pid: nat, h: Handler, prompts: map<string, Prompt>,
                            issues: map<string, Issue>, spendings: map<string, Spending>) {
    match h
    case ApproveSimulating(_, plan) => plan.txRequestHash == Builders.TxRequestHash(c.keccak, plan.tx)
    case ApprovePrompting(_, _, _) => PromptingOk(h, prompts, issues)
    case SignEstimating(job) => JobSound(c, job)
    case SignSigning(job, _, _) => JobSound(c, job) && PaidFor(pid, job, spendings, issues)
    case _ => true
  }

  predicate SamePrompt(g: Handler, h: Handler) {
    g.ApprovePrompting? && h.ApprovePrompting? && g.request == h.request
  }

  ghost predicate HandlersOk(c: Config, handlers: map<nat, Handler>, prompts: map<string, Prompt>,
                             issues: map<string, Issue>, spendings: map<string, Spending>) {
    && (forall p :: p in handlers ==> HandlerOk(c, p, handlers[p], prompts, issues, spendings))
    && (forall p, q :: p in handlers && q in handlers && SamePrompt(handlers[p], handlers[q]) ==> p == q)
  }

  ghost predicate SignaturesOk(c: Config, signatures: seq<Signature>, issues: map<string, Issue>,
                               spendings: map<string, Spending>) {
    && (forall i :: 0 <= i < |signatures| ==>
          JobSound(c, signatures[i].job) && PaidFor(signatures[i].pid, signatures[i].job, spendings, issues) &&
          IssuedBefore(signatures[i].job, issues, signatures[i].step))
    && (forall i, k :: 0 <= i < k < |signatures| ==> signatures[i].pid != signatures[k].pid)
  }

  /** Handlers that still may sign have not signed yet. */
  ghost predicate PidsOk(handlers: map<nat, Handler>, signatures: seq<Signature>, nextPid: nat) {
    && (forall p :: p in handlers ==> p < nextPid)
    && (forall i :: 0 <= i < |signatures| ==>
          signatures[i].pid < nextPid &&
          (signatures[i].pid in handlers ==> handlers[signatures[i].pid].SignBroadcasting?))
  }

  /** Everything recorded lies in the past. */
  ghost predicate HistoryOk(s: State) {
    && (forall r :: r in s.prompts ==> s.prompts[r].step < s.step && s.prompts[r].at <= s.now)
    && (forall r :: r in s.answers ==> s.answers[r].step < s.step)
    && (forall t :: t in s.issues ==> s.issues[t].step < s.step && s.issues[t].at <= s.now)
  }

  ghost predicate Inv(c: Config, s: State) {
    && (c.web || s.pending == map[])
    && PendingOk(s.pending, s.prompts, s.answers)
    && AnswersOk(c, s.answers, s.prompts)
    && SettledOk(s.settled, s.answers, s.prompts)
    && PromptsOk(c, s.prompts)
    && IssuesOk(s.issues, s.answers, s.prompts)
    && TokensOk(s.tokens, s.issues)
    && SpendingsOk(s.spendings, s.issues, s.tokens)
    && HandlersOk(c, s.handlers, s.prompts, s.issues, s.spendings)
    && SignaturesOk(c, s.signatures, s.issues, s.spendings)
    && PidsOk(s.handlers, s.signatures, s.nextPid)
    && HistoryOk(s)
  }

  // ---- single moves ----

  /** Inv, for a state whose step counter has moved on. */
  ghost predicate Next(c: Config, t: State) { Inv(c, t.(step := t.step + 1)) }

  lemma LaterKeepsInv(c: Config, s: State)
    requires Inv(c, s)
    ensures Next(c, s)
  {
    hide PendingOk, AnswersOk, SettledOk, PromptsOk, IssuesOk, TokensOk, SpendingsOk, SignaturesOk, HandlersOk, PidsOk;
  }

  lemma FinishKeeps(c: Config, s: State, pid: nat)
    requires Next(c, s)
    ensures Next(c, Finish(s, pid))
  {
    hide HandlerOk, PendingOk, AnswersOk, SettledOk, PromptsOk, IssuesOk, TokensOk, SpendingsOk, SignaturesOk;
  }

  /** Suspending on a handler that is no prompt. */
  lemma SuspendKeeps(c: Config, s: State, pid: nat, h: Handler)
    requires Next(c, s) && pid < s.nextPid && !h.ApprovePrompting?
    requires HandlerOk(c, pid, h, s.prompts, s.issues, s.spendings)
    requires forall i :: 0 <= i < |s.signatures| && s.signatures[i].pid == pid ==> h.SignBroadcasting?
    ensures Next(c, Suspend(s, pid, h))
  {
    hide HandlerOk, PendingOk, AnswersOk, SettledOk, PromptsOk, IssuesOk, TokensOk, SpendingsOk, SignaturesOk;
  }

  lemma NewPid(c: Config, s: State)
    requires Next(c, s)
    ensures Next(c, s.(nextPid := s.nextPid + 1))
    ensures forall i :: 0 <= i < |s.signatures| ==> s.signatures[i].pid != s.nextPid
  {
    hide PendingOk, AnswersOk, SettledOk, PromptsOk, IssuesOk, TokensOk, SpendingsOk, SignaturesOk, HandlersOk;
  }

  lemma ReceiveKeeps(c: Config, s: State, h: Handler)
    requires Next(c, s) && (h.BuildBuilding? || h.ApproveBuilding? || h.SignBuilding?)
    ensures Next(c, Receive(s, h))
  {
    hide Next, JobSound, PaidFor, PromptingOk, Builders.WellFormed;
    NewPid(c, s);
    SuspendKeeps(c, s.(nextPid := s.nextPid + 1), s.nextPid, h);
  }

  lemma ChargeKeeps(c: Config, s: State, i: Intent, risk: Option<int>)
    requires Inv(c, s)
    ensures Inv(c, Charge(c, s, i, risk))
    ensures Charge(c, s, i, risk) == s.(rate := Charge(c, s, i, risk).rate)
  {
    hide PendingOk, AnswersOk, SettledOk, PromptsOk, IssuesOk, TokensOk, SpendingsOk, SignaturesOk, HandlersOk, PidsOk;
    hide Policy.Decide;
  }

  // ---- environment ----

  lemma CleanupKeeps(c: Config, s: State)
    requires Inv(c, s)
    ensures Next(c, s.(tokens := Tokens.Cleanup(s.tokens, s.now)))
  {
    hide PendingOk, AnswersOk, SettledOk, PromptsOk, IssuesOk, SignaturesOk, HandlersOk, PidsOk, RowOk;
  }

  lemma RefuseKeeps(c: Config, s: State, kept: Pending.Store)
    requires Inv(c, s) && forall r :: r in kept ==> r in s.pending && kept[r] == s.pending[r]
    ensures Next(c, Refuse(s, kept))
  {
    hide AnswersOk, PromptsOk, IssuesOk, TokensOk, SpendingsOk, SignaturesOk, HandlersOk, PidsOk;
  }

  lemma AnswersGrow(c: Config, answers: map<string, Answer>, prompts: map<string, Prompt>, r: string, a: Answer)
    requires AnswersOk(c, answers, prompts)
    requires r in prompts && r !in answers && prompts[r].step < a.step
    requires c.web ==> a.at - prompts[r].at <= c.ttlMs
    ensures AnswersOk(c, answers[r := a], prompts)
  {
  }

  lemma IssuesAnswer(issues: map<string, Issue>, answers: map<string, Answer>, prompts: map<string, Prompt>,
                     r: string, a: Answer)
    requires IssuesBacked(issues, answers, prompts) && r !in answers
    ensures IssuesBacked(issues, answers[r := a], prompts)
  {
  }

  lemma SettledAnswer(settled: map<string, bool>, answers: map<string, Answer>, prompts: map<string, Prompt>,
                      r: string, a: Answer)
    requires SettledOk(settled, answers, prompts) && r in prompts && r !in answers
    ensures SettledOk(settled[r := a.approved], answers[r := a], prompts)
  {
  }

  lemma PendingAnswer(pending: Pending.Store, kept: Pending.Store, prompts: map<string, Prompt>,
                      answers: map<string, Answer>, r: string, a: Answer)
    requires PendingOk(pending, prompts, answers) && r !in kept
    requires forall q :: q in kept ==> q in pending && kept[q] == pending[q]
    ensures PendingOk(kept, prompts, answers[r := a])
  {
  }

  lemma AnswerKeeps(c: Config, s: State, r: string, approved: bool, pending: Pending.Store)
    requires Inv(c, s) && r in s.prompts && r !in s.answers && r !in pending
    requires c.web ==> s.now - s.prompts[r].at <= c.ttlMs
    requires forall q :: q in pending ==> q in s.pending && pending[q] == s.pending[q]
    ensures Next(c, OnAnswer(s.(pending := pending), r, approved))
  {
    hide PromptsOk, TokensOk, SpendingsOk, SignaturesOk, HandlersOk, PidsOk, IssuesBacked, OneTokenPerPrompt;
    hide AnswersOk, SettledOk, PendingOk;
    SettledAnswer(s.settled, s.answers, s.prompts, r, Answer(approved, s.now, s.step));
    PendingAnswer(s.pending, pending, s.prompts, s.answers, r, Answer(approved, s.now, s.step));
    AnswersGrow(c, s.answers, s.prompts, r, Answer(approved, s.now, s.step));
    IssuesAnswer(s.issues, s.answers, s.prompts, r, Answer(approved, s.now, s.step));
  }

  lemma RestartKeeps(c: Config, s: State)
    requires Inv(c, s)
    ensures Next(c, s.(handlers := map[], pending := map[], settled := map[], unlocked := map[]))
  {
    hide AnswersOk, PromptsOk, IssuesOk, TokensOk, SpendingsOk, SignaturesOk;
  }

  // ---- handlers ----

  lemma AnswersPrompt(c: Config, answers: map<string, Answer>, prompts: map<string, Prompt>, newId: string, p: Prompt)
    requires AnswersOk(c, answers, prompts) && newId !in prompts
    ensures AnswersOk(c, answers, prompts[newId := p]) && newId !in answers
  {
  }

  lemma IssuesPrompt(issues: map<string, Issue>, answers: map<string, Answer>, prompts: map<string, Prompt>,
                     newId: string, p: Prompt)
    requires IssuesBacked(issues, answers, prompts) && newId !in prompts
    ensures IssuesBacked(issues, answers, prompts[newId := p])
    ensures forall t :: t in issues ==> issues[t].request != newId
  {
  }

  lemma PendingGrows(s: State, newId: string, summary: Pending.Summary, p: Prompt)
    requires PendingOk(s.pending, s.prompts, s.answers)
    requires newId !in s.prompts && newId !in s.answers && p.at == s.now
    requires summary == Pending.Summary(p.intentId, p.hash)
    ensures PendingOk(s.pending, s.prompts[newId := p], s.answers)
    ensures PendingOk(Pending.Add(s.pending, newId, summary, s.now), s.prompts[newId := p], s.answers)
  {
  }

  lemma HandlersPrompt(c: Config, s: State, pid: nat, h: Handler, p: Prompt)
    requires HandlersOk(c, s.handlers, s.prompts, s.issues, s.spendings)
    requires h.ApprovePrompting? && h.request !in s.prompts
    requires p.intentId == h.intent.id && p.hash == h.plan.txRequestHash
    requires forall t :: t in s.issues ==> s.issues[t].request != h.request
    ensures HandlersOk(c, s.handlers[pid := h], s.prompts[h.request := p], s.issues, s.spendings)
  {
    hide Builders.TxRequestHash, JobSound, PaidFor;
    var prompts := s.prompts[h.request := p];
    forall q | q in s.handlers ensures HandlerOk(c, q, s.handlers[q], prompts, s.issues, s.spendings) {
      assert HandlerOk(c, q, s.handlers[q], s.prompts, s.issues, s.spendings);
    }
  }

  lemma PromptKeeps(c: Config, s: State, pid: nat, i: ValidIntent, plan: BuildPlan, newId: string,
                    pending: Pending.Store)
    requires Inv(c, s) && pid in s.handlers && !s.handlers[pid].SignBroadcasting? && newId !in s.prompts
    requires plan.txRequestHash == Builders.TxRequestHash(c.keccak, plan.tx)
    requires pending == s.pending ||
             (c.web && pending == Pending.Add(s.pending, newId, Pending.Summary(i.id, plan.txRequestHash), s.now))
    ensures Next(c, Suspend(s, pid, ApprovePrompting(i, plan, newId)).(pending := pending,
                   prompts := s.prompts[newId := Prompt(pid, i.id, plan.tx, plan.txRequestHash, s.now, s.step)]))
  {
    hide PendingOk, AnswersOk, IssuesBacked, OneTokenPerPrompt, HandlersOk, TokensOk, SpendingsOk, SignaturesOk;
    hide Builders.TxRequestHash, Pending.Add, PromptsOk, SettledOk, Builders.WellFormed;
    var p := Prompt(pid, i.id, plan.tx, plan.txRequestHash, s.now, s.step);
    AnswersPrompt(c, s.answers, s.prompts, newId, p);
    IssuesPrompt(s.issues, s.answers, s.prompts, newId, p);
    PendingGrows(s, newId, Pending.Summary(i.id, plan.txRequestHash), p);
    HandlersPrompt(c, s, pid, ApprovePrompting(i, plan, newId), p);
    NamesPrompt(c, s, newId, p);
  }

  lemma NamesPrompt(c: Config, s: State, newId: string, p: Prompt)
    requires PromptsOk(c, s.prompts) && SettledOk(s.settled, s.answers, s.prompts)
    requires p.hash == Builders.TxRequestHash(c.keccak, p.tx)
    ensures PromptsOk(c, s.prompts[newId := p]) && SettledOk(s.settled, s.answers, s.prompts[newId := p])
  {
    hide Builders.TxRequestHash;
  }

  lemma RiskKnownKeeps(c: Config, s: State, pid: nat, i: ValidIntent, plan: BuildPlan, risk: nat, newId: string)
    requires Inv(c, s) && pid in s.handlers && !s.handlers[pid].SignBroadcasting? && newId !in s.prompts
    requires plan.txRequestHash == Builders.TxRequestHash(c.keccak, plan.tx)
    ensures Next(c, OnRiskKnown(c, s, pid, i, plan, risk, newId))
  {
    hide Inv, Next, Builders.TxRequestHash, Charge, Decision;
    var t := Charge(c, s, i, Some(risk));
    ChargeKeeps(c, s, i, Some(risk));
    LaterKeepsInv(c, t);
    FinishKeeps(c, t, pid);
    if Decision(c, s, i, Some(risk)) == Policy.RequireApproval {
      var pending := if c.web then Pending.Add(t.pending, newId, Pending.Summary(i.id, plan.txRequestHash), t.now)
                     else t.pending;
      PromptKeeps(c, t, pid, i, plan, newId, pending);
    }
  }

  lemma IssuesGrow(c: Config, s: State, newId: string, issue: Issue)
    requires IssuesOk(s.issues, s.answers, s.prompts) && AnswersOk(c, s.answers, s.prompts)
    requires issue.request in s.answers && s.answers[issue.request].approved
    requires s.answers[issue.request].step < issue.step
    requires s.prompts[issue.request].intentId == issue.intentId && s.prompts[issue.request].hash == issue.hash
    requires newId !in s.issues && forall t :: t in s.issues ==> s.issues[t].request != issue.request
    ensures IssuesOk(s.issues[newId := issue], s.answers, s.prompts)
  {
  }

  lemma TablesIssue(s: State, newId: string, row: Tokens.TokenRow, issue: Issue)
    requires TokensOk(s.tokens, s.issues) && SpendingsOk(s.spendings, s.issues, s.tokens)
    requires newId !in s.issues && RowOk(row, issue)
    ensures TokensOk(s.tokens[newId := row], s.issues[newId := issue])
    ensures SpendingsOk(s.spendings, s.issues[newId := issue], s.tokens[newId := row])
  {
    hide RowOk;
  }

  lemma HandlersIssue(c: Config, s: State, pid: nat, newId: string, issue: Issue)
    requires HandlersOk(c, s.handlers, s.prompts, s.issues, s.spendings) && newId !in s.issues
    requires pid in s.handlers && s.handlers[pid].ApprovePrompting? && s.handlers[pid].request == issue.request
    ensures HandlersOk(c, s.handlers - {pid}, s.prompts, s.issues[newId := issue], s.spendings)
  {
    hide Builders.TxRequestHash, JobSound;
    var issues := s.issues[newId := issue];
    forall q | q in s.handlers && q != pid ensures HandlerOk(c, q, s.handlers[q], s.prompts, issues, s.spendings) {
      assert HandlerOk(c, q, s.handlers[q], s.prompts, s.issues, s.spendings);
      assert !SamePrompt(s.handlers[q], s.handlers[pid]);
    }
  }

  lemma SignaturesIssue(c: Config, s: State, newId: string, issue: Issue)
    requires SignaturesOk(c, s.signatures, s.issues, s.spendings) && newId !in s.issues
    ensures SignaturesOk(c, s.signatures, s.issues[newId := issue], s.spendings)
  {
    hide JobSound;
  }

  lemma TokenIssueKeeps(c: Config, s: State, pid: nat, h: Handler, newId: string)
    requires Inv(c, s) && pid in s.handlers && s.handlers[pid] == h
    requires h.ApprovePrompting? && h.request in s.settled && newId !in s.issues
    ensures Next(c, OnPromptSettled(s, pid, h, newId))
  {
    hide PendingOk, AnswersOk, PromptsOk, IssuesOk, TokensOk, SpendingsOk, SignaturesOk, Next;
    LaterKeepsInv(c, s);
    FinishKeeps(c, s, pid);
    if s.settled[h.request] {
      var issue := Issue(h.request, h.intent.id, h.plan.txRequestHash, h.intent.wallet, s.now, s.step);
      assert HandlerOk(c, pid, h, s.prompts, s.issues, s.spendings);
      IssueStep(c, s, pid, newId, issue);
    }
  }

  lemma IssueStep(c: Config, s: State, pid: nat, newId: string, issue: Issue)
    requires Inv(c, s) && newId !in s.issues && issue.at == s.now && issue.step == s.step
    requires pid in s.handlers && s.handlers[pid].ApprovePrompting? && s.handlers[pid].request == issue.request
    requires issue.request in s.answers && s.answers[issue.request].approved && issue.request in s.prompts
    requires s.prompts[issue.request].intentId == issue.intentId && s.prompts[issue.request].hash == issue.hash
    requires forall t :: t in s.issues ==> s.issues[t].request != issue.request
    ensures Next(c, Finish(s, pid).(issues := s.issues[newId := issue],
                      tokens := Tokens.Issue(s.tokens, newId, issue.intentId, issue.hash, APPROVAL_TTL_SECONDS, s.now)))
  {
    hide PendingOk, AnswersOk, SettledOk, PromptsOk, IssuesOk, TokensOk, SpendingsOk, SignaturesOk, HandlersOk;
    IssuesGrow(c, s, newId, issue);
    TablesIssue(s, newId,
                Tokens.TokenRow(issue.intentId, issue.hash, Tokens.Seconds(s.now), APPROVAL_TTL_SECONDS, false), issue);
    HandlersIssue(c, s, pid, newId, issue);
    SignaturesIssue(c, s, newId, issue);
  }

  lemma ValidTokenIsUnspent(s: State, t: string, intentId: string, hash: string)
    requires TokensOk(s.tokens, s.issues) && SpendingsOk(s.spendings, s.issues, s.tokens)
    requires t in s.issues && s.issues[t].at <= s.now
    requires Tokens.Validate(s.tokens, t, intentId, hash, s.now) == None
    ensures t !in s.spendings && s.issues[t].intentId == intentId && s.issues[t].hash == hash
    ensures s.now - s.issues[t].at < 1000 * APPROVAL_TTL_SECONDS
  {
  }

  lemma TablesSpend(s: State, t: string, spending: Spending)
    requires TokensOk(s.tokens, s.issues) && SpendingsOk(s.spendings, s.issues, s.tokens)
    requires t in s.issues && spending.at - s.issues[t].at < 1000 * APPROVAL_TTL_SECONDS
    ensures TokensOk(Tokens.Consume(s.tokens, t), s.issues)
    ensures SpendingsOk(s.spendings[t := spending], s.issues, Tokens.Consume(s.tokens, t))
  {
  }

  lemma HandlersSpend(c: Config, s: State, t: string, spending: Spending)
    requires HandlersOk(c, s.handlers, s.prompts, s.issues, s.spendings) && t !in s.spendings
    ensures HandlersOk(c, s.handlers, s.prompts, s.issues, s.spendings[t := spending])
  {
    hide Builders.TxRequestHash, JobSound, PromptingOk;
    forall q | q in s.handlers
      ensures HandlerOk(c, q, s.handlers[q], s.prompts, s.issues, s.spendings[t := spending]) {
      assert HandlerOk(c, q, s.handlers[q], s.prompts, s.issues, s.spendings);
    }
  }

  lemma SignaturesSpend(c: Config, s: State, t: string, spending: Spending)
    requires SignaturesOk(c, s.signatures, s.issues, s.spendings) && t !in s.spendings
    ensures SignaturesOk(c, s.signatures, s.issues, s.spendings[t := spending])
  {
    hide JobSound;
  }

  lemma SpendKeeps(c: Config, s: State, pid: nat, job: Job)
    requires Inv(c, s) && JobSound(c, job)
    requires job.token.Some? &&
             Tokens.Validate(s.tokens, job.token.value, job.intent.id, job.plan.txRequestHash, s.now) == None
    ensures var t := s.(tokens := Tokens.Consume(s.tokens, job.token.value),
                        spendings := s.spendings[job.token.value := Spending(pid, s.now, s.step)]);
      Inv(c, t) && PaidFor(pid, job, t.spendings, t.issues)
  {
    hide PendingOk, AnswersOk, SettledOk, PromptsOk, IssuesOk, JobSound, SpendingsOk, SignaturesOk, HandlersOk, PidsOk;
    var t := job.token.value;
    assert t in s.tokens && t in s.issues;
    ValidTokenIsUnspent(s, t, job.intent.id, job.plan.txRequestHash);
    TablesSpend(s, t, Spending(pid, s.now, s.step));
    HandlersSpend(c, s, t, Spending(pid, s.now, s.step));
    SignaturesSpend(c, s, t, Spending(pid, s.now, s.step));
  }

  lemma SigningHandlerIsUnsigned(c: Config, s: State, pid: nat)
    requires Inv(c, s) && pid in s.handlers && !s.handlers[pid].SignBroadcasting?
    ensures pid < s.nextPid && forall i :: 0 <= i < |s.signatures| ==> s.signatures[i].pid != pid
  {
    hide PendingOk, AnswersOk, SettledOk, PromptsOk, IssuesOk, TokensOk, SpendingsOk, SignaturesOk, HandlersOk;
  }

  lemma AuthorizeKeeps(c: Config, s: State, pid: nat, job: Job, extras: Option<Extras>)
    requires Inv(c, s) && pid in s.handlers && !s.handlers[pid].SignBroadcasting? && JobSound(c, job)
    ensures Next(c, OnAuthorize(s, pid, job, extras))
  {
    hide PendingOk, AnswersOk, SettledOk, PromptsOk, IssuesOk, TokensOk, SpendingsOk, SignaturesOk, HandlersOk;
    hide Tokens.Validate, Tokens.Consume, Next, PidsOk, JobSound, Builders.WellFormed;
    SigningHandlerIsUnsigned(c, s, pid);
    var q := Wallet.SignRequest(job.intent.id, job.intent.wallet, job.plan.txRequestHash, Some(job.verdict), job.token);
    var t := s;
    if Wallet.SpendsToken(s.tokens, q, s.now) {
      SpendKeeps(c, s, pid, job);
      t := s.(tokens := Tokens.Consume(s.tokens, job.token.value),
              spendings := s.spendings[job.token.value := Spending(pid, s.now, s.step)]);
    }
    LaterKeepsInv(c, t);
    FinishKeeps(c, t, pid);
    match Wallet.Gate(s.tokens, s.unlocked, q, s.now)
    case Err(_) =>
    case Ok(key) => SuspendKeeps(c, t, pid, SignSigning(job, extras, key));
  }

  lemma NewJobIsSound(c: Config, s: State, i: ValidIntent, offered: Option<string>,
                      client: Option<Builders.OneInchReply>, plan: BuildPlan)
    requires Builders.BuildFromIntent(c.keccak, i, client) == Ok(plan) && !Stops(c, s, i, offered, plan)
    ensures JobSound(c, NewJob(c, s, i, offered, client, plan))
  {
    hide Builders.BuildFromIntent, Builders.WellFormed, Policy.Decide, Tokens.Validate, Recent;
    match Decision(c, s, i, None)
    case Allow =>
    case RequireApproval =>
  }

  lemma SignPlanKeeps(c: Config, s: State, pid: nat, i: ValidIntent, offered: Option<string>,
                      client: Option<Builders.OneInchReply>, plan: BuildPlan)
    requires Inv(c, s) && pid in s.handlers && !s.handlers[pid].SignBroadcasting?
    requires Builders.BuildFromIntent(c.keccak, i, client) == Ok(plan)
    ensures Next(c, OnSignPlan(c, s, pid, i, offered, client, plan))
  {
    hide Next, Builders.BuildFromIntent, Builders.WellFormed, OnAuthorize, Stops, NewJob, Charge, JobSound;
    hide PendingOk, AnswersOk, SettledOk, PromptsOk, IssuesOk, TokensOk, SpendingsOk, SignaturesOk, HandlersOk;
    var t := Charge(c, s, i, None);
    ChargeKeeps(c, s, i, None);
    LaterKeepsInv(c, t);
    FinishKeeps(c, t, pid);
    if !Stops(c, s, i, offered, plan) {
      var job := NewJob(c, s, i, offered, client, plan);
      NewJobIsSound(c, s, i, offered, client, plan);
      AuthorizeKeeps(c, t, pid, job, None);
      SuspendKeeps(c, t, pid, SignEstimating(job));
    }
  }

  lemma BuiltKeeps(c: Config, s: State, pid: nat, h: Handler, client: Option<Builders.OneInchReply>, newId: string)
    requires Inv(c, s) && pid in s.handlers && s.handlers[pid] == h && newId !in s.prompts
    requires h.BuildBuilding? || h.ApproveBuilding? || h.SignBuilding?
    ensures Next(c, OnBuilt(c, s, pid, h, client, newId))
  {
    hide Next, Builders.BuildFromIntent, Builders.TxRequestHash, OnSignPlan, OnRiskKnown;
    hide PendingOk, AnswersOk, SettledOk, PromptsOk, IssuesOk, TokensOk, SpendingsOk, SignaturesOk, HandlersOk;
    LaterKeepsInv(c, s);
    FinishKeeps(c, s, pid);
    var built := Builders.BuildFromIntent(c.keccak, h.intent, client);
    if built.Ok? {
      Builders.PlanFields(c.keccak, h.intent, client);
      match h
      case BuildBuilding(_) =>
      case ApproveBuilding(i) =>
        SuspendKeeps(c, s, pid, ApproveSimulating(i, built.value));
        RiskKnownKeeps(c, s, pid, i, built.value, 0, newId);
      case SignBuilding(i, offered) =>
        SignPlanKeeps(c, s, pid, i, offered, client, built.value);
    }
  }

  lemma SignaturesAppend(c: Config, s: State, sig: Signature)
    requires SignaturesOk(c, s.signatures, s.issues, s.spendings)
    requires JobSound(c, sig.job) && PaidFor(sig.pid, sig.job, s.spendings, s.issues)
    requires IssuedBefore(sig.job, s.issues, sig.step)
    requires forall i :: 0 <= i < |s.signatures| ==> s.signatures[i].pid != sig.pid
    ensures SignaturesOk(c, s.signatures + [sig], s.issues, s.spendings)
  {
    hide JobSound, PaidFor;
  }

  lemma SignedKeeps(c: Config, s: State, pid: nat, h: Handler)
    requires Inv(c, s) && pid in s.handlers && s.handlers[pid] == h && h.SignSigning?
    ensures Next(c, OnSigned(c, s, pid, h))
  {
    hide PendingOk, AnswersOk, SettledOk, PromptsOk, IssuesOk, TokensOk, SpendingsOk, SignaturesOk, HandlersOk;
    hide Builders.WellFormed, JobSound, PaidFor, PidsOk, Inv, Next, IssuedBefore;
    SigningHandlerIsPaid(c, s, pid);
    SigningHandlerIsUnsigned(c, s, pid);
    var sig, i := Signature(pid, h.job, h.extras, h.key, s.step), h.job.intent;
    RecordSignature(c, s, sig, s.handlers[pid := SignBroadcasting(i)], i);
    RecordSignature(c, s, sig, s.handlers - {pid}, i);
  }

  lemma RecordSignature(c: Config, s: State, sig: Signature, handlers: map<nat, Handler>, i: ValidIntent)
    requires Inv(c, s) && sig.pid in s.handlers && sig.step == s.step
    requires handlers == s.handlers[sig.pid := SignBroadcasting(i)] || handlers == s.handlers - {sig.pid}
    requires JobSound(c, sig.job) && PaidFor(sig.pid, sig.job, s.spendings, s.issues)
    requires IssuedBefore(sig.job, s.issues, sig.step)
    requires forall k :: 0 <= k < |s.signatures| ==> s.signatures[k].pid != sig.pid
    ensures Next(c, s.(signatures := s.signatures + [sig], handlers := handlers))
  {
    hide PendingOk, AnswersOk, SettledOk, PromptsOk, IssuesOk, TokensOk, SpendingsOk, SignaturesOk, HandlersOk;
    hide Builders.WellFormed, JobSound, PaidFor, PidsOk, IssuedBefore;
    SignaturesAppend(c, s, sig);
    HandlersBroadcast(c, s, sig.pid, i);
    PidsSign(s, sig.pid, sig, i);
  }

  lemma SigningHandlerIsPaid(c: Config, s: State, pid: nat)
    requires Inv(c, s) && pid in s.handlers && s.handlers[pid].SignSigning?
    ensures JobSound(c, s.handlers[pid].job) && PaidFor(pid, s.handlers[pid].job, s.spendings, s.issues)
    ensures IssuedBefore(s.handlers[pid].job, s.issues, s.step)
  {
    hide PendingOk, AnswersOk, SettledOk, PromptsOk, IssuesOk, TokensOk, SpendingsOk, SignaturesOk, PidsOk;
    hide Builders.WellFormed, JobSound;
    assert HandlerOk(c, pid, s.handlers[pid], s.prompts, s.issues, s.spendings);
  }

  lemma PidsSign(s: State, pid: nat, sig: Signature, i: ValidIntent)
    requires PidsOk(s.handlers, s.signatures, s.nextPid) && pid in s.handlers && sig.pid == pid
    ensures PidsOk(s.handlers[pid := SignBroadcasting(i)], s.signatures + [sig], s.nextPid)
    ensures PidsOk(s.handlers - {pid}, s.signatures + [sig], s.nextPid)
  {
    hide Builders.WellFormed;
  }

  lemma HandlersBroadcast(c: Config, s: State, pid: nat, i: ValidIntent)
    requires HandlersOk(c, s.handlers, s.prompts, s.issues, s.spendings)
    ensures HandlersOk(c, s.handlers[pid := SignBroadcasting(i)], s.prompts, s.issues, s.spendings)
    ensures HandlersOk(c, s.handlers - {pid}, s.prompts, s.issues, s.spendings)
  {
    hide PaidFor, JobSound, PromptingOk, Builders.TxRequestHash;
  }

  // ---- every step, every run ----

  lemma EnvironmentKeeps(c: Config, s: State, l: Label)
    requires Inv(c, s) && Act(c, s, l).Some?
    requires l.Advance? || l.TokenCleanup? || l.PendingCleanup? || l.RateCleanup? || l.WebDecide? ||
             l.PromptAnswered? || l.ClosePending? || l.KeyUnlocked? || l.KeyLocked? || l.Restart?
    ensures Next(c, Act(c, s, l).value)
  {
    hide AnswersOk, SettledOk, PromptsOk, IssuesOk, TokensOk, SpendingsOk, SignaturesOk, PidsOk, JobSound, PaidFor;
    hide Builders.WellFormed, Builders.TxRequestHash, Next, PendingOk, HandlersOk;
    hide Tokens.Cleanup, OnAnswer, Refuse, OnReceiveBuild, OnBuilt, OnRiskKnown, OnPromptSettled, OnAuthorize, OnSigned;
    LaterKeepsInv(c, s);
    match l
    case TokenCleanup => CleanupKeeps(c, s);
    case PendingCleanup => RefuseKeeps(c, s, Pending.Cleanup(s.pending, s.now, c.ttlMs));
    case WebDecide(r, approved) => WebDecideKeeps(c, s, r, approved);
    case PromptAnswered(r, approved) => PromptAnsweredKeeps(c, s, r, approved);
    case ClosePending => RefuseKeeps(c, s, map[]);
    case Restart => RestartKeeps(c, s);
    case Advance(_) => UntrackedKeeps(c, s, Act(c, s, l).value);
    case RateCleanup(_) => UntrackedKeeps(c, s, Act(c, s, l).value);
    case KeyUnlocked(_, _) => UntrackedKeeps(c, s, Act(c, s, l).value);
    case KeyLocked(_) => UntrackedKeeps(c, s, Act(c, s, l).value);
  }

  /** The clock, the rate table and the unlocked keys are not mentioned by the invariant. */
  lemma UntrackedKeeps(c: Config, s: State, t: State)
    requires Inv(c, s) && t == s.(now := t.now, rate := t.rate, unlocked := t.unlocked) && s.now <= t.now
    ensures Next(c, t)
  {
    hide PendingOk, AnswersOk, SettledOk, PromptsOk, IssuesOk, TokensOk, SpendingsOk, SignaturesOk, PidsOk, HandlersOk;
  }

  lemma PromptAnsweredKeeps(c: Config, s: State, r: string, approved: bool)
    requires Inv(c, s) && !c.web && Waiting(s, r) && r !in s.answers
    ensures Next(c, OnAnswer(s, r, approved))
  {
    hide AnswersOk, SettledOk, PromptsOk, IssuesOk, TokensOk, SpendingsOk, SignaturesOk, PidsOk, OnAnswer, Next;
    hide JobSound, PaidFor, Builders.WellFormed;
    var p :| p in s.handlers && s.handlers[p].ApprovePrompting? && s.handlers[p].request == r;
    assert HandlerOk(c, p, s.handlers[p], s.prompts, s.issues, s.spendings);
    assert s.(pending := s.pending) == s;
    AnswerKeeps(c, s, r, approved, s.pending);
  }

  lemma WebDecideKeeps(c: Config, s: State, r: string, approved: bool)
    requires Inv(c, s)
    ensures Next(c, Act(c, s, WebDecide(r, approved)).value)
  {
    hide AnswersOk, SettledOk, PromptsOk, IssuesOk, TokensOk, SpendingsOk, SignaturesOk, PidsOk, HandlersOk, OnAnswer;
    if Pending.DecideSucceeds(s.pending, r, s.now, c.ttlMs) {
      AnswerKeeps(c, s, r, approved, Pending.Decide(s.pending, r));
    }
  }

  lemma NewcomerKeeps(c: Config, s: State, l: Label)
    requires Inv(c, s) && Act(c, s, l).Some? && (l.ReceiveBuild? || l.ReceiveApprove? || l.ReceiveSign?)
    ensures Next(c, Act(c, s, l).value)
  {
    hide Inv, Next, OnReceiveBuild, Receive, Builders.WellFormed;
    LaterKeepsInv(c, s);
    match l
    case ReceiveBuild(i) => ReceiveBuildKeeps(c, s, i);
    case ReceiveApprove(i) => ReceiveKeeps(c, s, ApproveBuilding(i));
    case ReceiveSign(i, offered) => ReceiveKeeps(c, s, SignBuilding(i, offered));
  }

  lemma HandlerFacts(c: Config, s: State, pid: nat)
    requires Inv(c, s) && pid in s.handlers
    ensures HandlerOk(c, pid, s.handlers[pid], s.prompts, s.issues, s.spendings)
  {
    hide AnswersOk, SettledOk, PromptsOk, IssuesOk, TokensOk, SpendingsOk, SignaturesOk, PidsOk, PendingOk, HandlerOk;
  }

  lemma HandlerKeeps(c: Config, s: State, l: Label)
    requires Inv(c, s) && Act(c, s, l).Some?
    requires l.Built? || l.Simulated? || l.PromptSettled? || l.Estimated? || l.SigningReturned? || l.Sent?
    ensures Next(c, Act(c, s, l).value)
  {
    hide Inv, Next, Builders.WellFormed, JobSound, PaidFor, PromptingOk;
    hide OnBuilt, OnRiskKnown, OnPromptSettled, OnAuthorize, OnSigned, Finish, Builders.TxRequestHash;
    LaterKeepsInv(c, s);
    HandlerFacts(c, s, l.pid);
    match l
    case Built(pid, client, newId) => BuiltKeeps(c, s, pid, s.handlers[pid], client, newId);
    case Simulated(pid, risk, newId) =>
      FinishKeeps(c, s, pid);
      if risk.Some? {
        RiskKnownKeeps(c, s, pid, s.handlers[pid].intent, s.handlers[pid].plan, risk.value, newId);
      }
    case PromptSettled(pid, newId) => TokenIssueKeeps(c, s, pid, s.handlers[pid], newId);
    case Estimated(pid, extras) =>
      AuthorizeKeeps(c, s, pid, s.handlers[pid].job, extras);
    case SigningReturned(pid, ok) =>
      FinishKeeps(c, s, pid);
      SignedKeeps(c, s, pid, s.handlers[pid]);
    case Sent(pid) => FinishKeeps(c, s, pid);
  }

  lemma ReceiveBuildKeeps(c: Config, s: State, i: ValidIntent)
    requires Inv(c, s)
    ensures Next(c, OnReceiveBuild(c, s, i))
  {
    hide PendingOk, AnswersOk, SettledOk, PromptsOk, IssuesOk, TokensOk, SpendingsOk, SignaturesOk, HandlersOk,
         Policy.Decide;
    var t := Charge(c, s, i, None);
    ChargeKeeps(c, s, i, None);
    LaterKeepsInv(c, s);
    LaterKeepsInv(c, t);
    ReceiveKeeps(c, t, BuildBuilding(i));
  }

  /** Every possible step keeps the invariant. */
  lemma StepKeepsInv(c: Config, s: State, l: Label)
    requires Inv(c, s) && Step(c, s, l).Some?
    ensures Inv(c, Step(c, s, l).value)
  {
    hide Inv, Act;
    if l.ReceiveBuild? || l.ReceiveApprove? || l.ReceiveSign? {
      NewcomerKeeps(c, s, l);
    } else if l.Built? || l.Simulated? || l.PromptSettled? || l.Estimated? || l.SigningReturned? || l.Sent? {
      HandlerKeeps(c, s, l);
    } else {
      EnvironmentKeeps(c, s, l);
    }
  }

  lemma InitialInv(c: Config)
    ensures Inv(c, INIT)
  {
    hide HandlerOk, JobSound, PaidFor, RowOk;
    hide PendingOk, AnswersOk, SettledOk, PromptsOk, IssuesOk, TokensOk, SpendingsOk, SignaturesOk, HandlersOk;
    NothingIsOk(c);
    NoIssuesAreOk(c);
  }

  lemma NothingIsOk(c: Config)
    ensures PendingOk(map[], map[], map[]) && AnswersOk(c, map[], map[]) && SettledOk(map[], map[], map[])
    ensures PromptsOk(c, map[])
  {
  }

  lemma NoIssuesAreOk(c: Config)
    ensures IssuesOk(map[], map[], map[]) && TokensOk(map[], map[]) && SpendingsOk(map[], map[], map[])
    ensures HandlersOk(c, map[], map[], map[], map[]) && SignaturesOk(c, [], map[], map[])
  {
    hide HandlerOk, JobSound, PaidFor, RowOk;
  }

  lemma {:induction false} RunKeepsInv(c: Config, run: seq<Label>)
    requires Exec(c, run).Some?
    ensures Inv(c, Exec(c, run).value)
  {
    hide Step, Inv;
    if run == [] {
      InitialInv(c);
    } else {
      RunKeepsInv(c, run[..|run| - 1]);
      StepKeepsInv(c, Exec(c, run[..|run| - 1]).value, run[|run| - 1]);
    }
  }

  // ---- theorems ----

  /** The prompt `request` stands behind the signature: it was answered true before the
      signing, in web mode no later than the pending lifetime after it was added; it showed
      the same intent id and hash; and with an injective hash it showed the very transaction
      that was signed.  The token it yielded was spent before it expired. */
  ghost predicate Backs(c: Config, s: State, request: string, sig: Signature) {
    && request in s.answers && s.answers[request].approved && s.answers[request].step < sig.step
    && request in s.prompts && s.prompts[request].step < s.answers[request].step
    && (c.web ==> s.answers[request].at - s.prompts[request].at <= c.ttlMs)
    && s.prompts[request].intentId == sig.job.intent.id
    && s.prompts[request].hash == sig.job.plan.txRequestHash
    && (Builders.Injective(c.keccak) ==> s.prompts[request].tx == sig.job.plan.tx)
    && sig.job.token.Some? && sig.job.token.value in s.issues && sig.job.token.value in s.spendings
    && s.issues[sig.job.token.value].request == request
    && s.spendings[sig.job.token.value].at - s.issues[sig.job.token.value].at < 300_000
  }

  ghost predicate ApprovalMap(c: Config, s: State, f: map<nat, string>) {
    && (forall i :: i in f <==> 0 <= i < |s.signatures| && NeedsApproval(s.signatures[i].job))
    && (forall i :: i in f ==> Backs(c, s, f[i], s.signatures[i]))
    && (forall i, k :: i in f && k in f && f[i] == f[k] ==> i == k)
  }

  lemma SignatureIsBacked(c: Config, s: State, i: nat)
    requires Inv(c, s) && i < |s.signatures| && NeedsApproval(s.signatures[i].job)
    ensures var job := s.signatures[i].job;
      job.token.Some? && job.token.value in s.issues && job.token.value in s.spendings &&
      s.spendings[job.token.value].pid == s.signatures[i].pid &&
      Backs(c, s, s.issues[job.token.value].request, s.signatures[i])
  {
    hide PendingOk, SettledOk, HandlersOk, PidsOk, TokensOk, HistoryOk, OneTokenPerPrompt;
    hide Builders.BuildFromIntent, Policy.Decide, Builders.TxRequestHash, Builders.WellFormed;
    var job := s.signatures[i].job;
    assert JobSound(c, job) && PaidFor(s.signatures[i].pid, job, s.spendings, s.issues);
    Builders.PlanFields(c.keccak, job.intent, job.client);
    if Builders.Injective(c.keccak) {
      Builders.HashBindsRequest(c.keccak, s.prompts[s.issues[job.token.value].request].tx, job.plan.tx);
    }
  }

  lemma SameTokenSameSignature(c: Config, s: State, i: nat, k: nat)
    requires Inv(c, s) && i < |s.signatures| && k < |s.signatures|
    requires NeedsApproval(s.signatures[i].job) && NeedsApproval(s.signatures[k].job)
    ensures s.signatures[i].job.token == s.signatures[k].job.token ==> i == k
  {
    SignatureIsBacked(c, s, i);
    SignatureIsBacked(c, s, k);
    hide Inv, Backs;
    SignersDiffer(c, s, i, k);
  }

  lemma SignersDiffer(c: Config, s: State, i: nat, k: nat)
    requires Inv(c, s) && i < |s.signatures| && k < |s.signatures|
    ensures s.signatures[i].pid == s.signatures[k].pid ==> i == k
  {
    hide PendingOk, AnswersOk, SettledOk, PromptsOk, IssuesOk, TokensOk, SpendingsOk, HandlersOk, PidsOk, JobSound;
  }

  /** In every run, the signatures made under a require_approval decision map one-to-one to
      distinct earlier prompts that were answered true for the same intent and transaction. */
  lemma SignaturesAreApproved(c: Config, run: seq<Label>)
    requires Exec(c, run).Some?
    ensures exists f: map<nat, string> :: ApprovalMap(c, Exec(c, run).value, f)
  {
    hide Exec, Inv, ApprovalMap;
    RunKeepsInv(c, run);
    ApprovalMapExists(c, Exec(c, run).value);
  }

  /** The request whose prompt yielded the i-th signature's token. */
  function Backer(s: State, i: nat): string
    requires i < |s.signatures|
  {
    var token := s.signatures[i].job.token;
    if token.Some? && token.value in s.issues then s.issues[token.value].request else ""
  }

  lemma BackerBacks(c: Config, s: State, i: nat)
    requires Inv(c, s) && i < |s.signatures| && NeedsApproval(s.signatures[i].job)
    ensures Backs(c, s, Backer(s, i), s.signatures[i])
  {
    hide Inv, Backs;
    SignatureIsBacked(c, s, i);
  }

  lemma BackersDiffer(c: Config, s: State, i: nat, k: nat)
    requires Inv(c, s) && i < |s.signatures| && NeedsApproval(s.signatures[i].job)
    requires k < |s.signatures| && NeedsApproval(s.signatures[k].job)
    ensures Backer(s, i) == Backer(s, k) ==> i == k
  {
    hide Inv, Backs;
    SignatureIsBacked(c, s, i);
    SignatureIsBacked(c, s, k);
    TokenOfPrompt(c, s, s.signatures[i].job.token.value, s.signatures[k].job.token.value);
    SameTokenSameSignature(c, s, i, k);
  }

  lemma ApprovalMapExists(c: Config, s: State)
    requires Inv(c, s)
    ensures exists f: map<nat, string> :: ApprovalMap(c, s, f)
  {
    hide Inv, Backs, Backer, NeedsApproval, Builders.WellFormed;
    var f := map i: nat | i < |s.signatures| && NeedsApproval(s.signatures[i].job) :: Backer(s, i);
    forall i | i in f ensures Backs(c, s, f[i], s.signatures[i]) {
      BackerBacks(c, s, i);
    }
    forall i, k | i in f && k in f && f[i] == f[k] ensures i == k {
      BackersDiffer(c, s, i, k);
    }
    assert ApprovalMap(c, s, f);
  }

  lemma TokenOfPrompt(c: Config, s: State, t: string, u: string)
    requires Inv(c, s) && t in s.issues && u in s.issues
    ensures s.issues[t].request == s.issues[u].request ==> t == u
  {
    hide PendingOk, AnswersOk, SettledOk, PromptsOk, IssuesBacked, TokensOk, SpendingsOk, SignaturesOk, HandlersOk,
         PidsOk;
  }

  /** At most one signature is ever made with a token, however many handlers carried it. */
  lemma TokensAreSingleUse(c: Config, run: seq<Label>, i: nat, k: nat)
    requires Exec(c, run).Some? && i < k < |Exec(c, run).value.signatures|
    requires Exec(c, run).value.signatures[i].job.token.Some?
    requires Exec(c, run).value.signatures[k].job.token.Some?
    ensures Exec(c, run).value.signatures[i].job.token != Exec(c, run).value.signatures[k].job.token
  {
    hide Exec, Inv, JobSound;
    RunKeepsInv(c, run);
    var s := Exec(c, run).value;
    TokenMeansApproval(c, s, i);
    TokenMeansApproval(c, s, k);
    SameTokenSameSignature(c, s, i, k);
  }

  lemma TokenMeansApproval(c: Config, s: State, i: nat)
    requires Inv(c, s) && i < |s.signatures| && s.signatures[i].job.token.Some?
    ensures NeedsApproval(s.signatures[i].job)
  {
    hide PendingOk, AnswersOk, SettledOk, PromptsOk, IssuesOk, TokensOk, SpendingsOk, HandlersOk, PidsOk, PaidFor;
    hide Builders.BuildFromIntent, Policy.Decide;
    assert JobSound(c, s.signatures[i].job);
  }

  /** Every signed transaction was built from an intent this policy did not deny; unless the
      aggregator supplied the calldata, decoding it shows exactly what the intent asks for and
      nothing the configured chains, allowlists and caps forbid. */
  lemma SignedTransactionsObeyPolicy(c: Config, run: seq<Label>, i: nat)
    requires Exec(c, run).Some? && i < |Exec(c, run).value.signatures| && Builders.WellFormedLists(c.policy)
    ensures var job := Exec(c, run).value.signatures[i].job;
      && job.verdict != Policy.Deny
      && job.plan.tx.chainId == job.intent.chainId
      && (!Builders.ViaOneInch(job.intent, job.client) ==>
            Abi.Decode(job.plan.tx) == Some(Builders.Meaning(job.intent)) &&
            Builders.Obeys(Builders.Meaning(job.intent), job.plan.tx.chainId, c.policy))
  {
    hide Exec, Inv, Builders.BuildFromIntent, Builders.WellFormed, Builders.WellFormedLists, Builders.ViaOneInch;
    hide Policy.Decide, Builders.Meaning, Builders.Obeys, Abi.Decode, Builders.TxRequestHash;
    RunKeepsInv(c, run);
    var s := Exec(c, run).value;
    var job := s.signatures[i].job;
    SignedJobIsSound(c, s, i);
    Builders.PlanFields(c.keccak, job.intent, job.client);
    if !Builders.ViaOneInch(job.intent, job.client) {
      Builders.BuildPreservesMeaning(c.keccak, job.intent, job.client);
      Builders.MeaningObeys(job.intent, c.policy, Policy.Options(None, Some(job.recent)));
    }
  }

  lemma SignedJobIsSound(c: Config, s: State, i: nat)
    requires Inv(c, s) && i < |s.signatures|
    ensures JobSound(c, s.signatures[i].job)
  {
    hide PendingOk, AnswersOk, SettledOk, PromptsOk, IssuesOk, TokensOk, SpendingsOk, HandlersOk, PidsOk, PaidFor,
         JobSound;
  }
}
