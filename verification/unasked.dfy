/** Which intents are signed without anybody having said yes. */
module Unasked {
  import opened Types
  import opened Protocol
  import opened Frames
  import opened Safety
  import opened Moves
  import Progress
  import Text
  import Policy
  import RateLimit
  import Pending
  import Builders

  // ---- sign-and-send without a token ----

  /** A request without a token, carried to its signature. */
  function SignLabels(c: Config, q: nat, i: ValidIntent, client: Option<Builders.OneInchReply>, r: string,
                      extras: Option<Extras>): seq<Label> {
    [ReceiveSign(i, None)] + ([Built(q, client, r)] + LastLabels(c, q, i, extras))
  }

  function LastLabels(c: Config, q: nat, i: ValidIntent, extras: Option<Extras>): seq<Label> {
    if c.rpc(i.chainId) then [Estimated(q, extras)] + [SigningReturned(q, true)] else [SigningReturned(q, true)]
  }

  /** One more signature: this plan with these fees, on the verdict allow, without a token. */
  predicate SignedUnasked(before: seq<Signature>, after: seq<Signature>, i: ValidIntent, plan: BuildPlan,
                          extras: Option<Extras>) {
    |after| == |before| + 1 && after[..|before|] == before && AllowedJob(after[|before|].job, i, plan) &&
    after[|before|].extras == extras
  }

  predicate AllowedJob(job: Job, i: ValidIntent, plan: BuildPlan) {
    job.intent == i && job.plan == plan && job.verdict == Policy.Allow && job.token == None
  }

  lemma LastIsSigned(c: Config, s: State, q: nat, i: ValidIntent, plan: BuildPlan)
    requires q in s.handlers && s.handlers[q].SignSigning? && AllowedJob(s.handlers[q].job, i, plan)
    requires Signable(c.keccak, plan.tx, s.handlers[q].extras)
    ensures Runs(c, s, [SigningReturned(q, true)]).Some?
    ensures SignedUnasked(s.signatures, Runs(c, s, [SigningReturned(q, true)]).value.signatures, i, plan,
                          s.handlers[q].extras)
  {
    hide Step, Builders.WellFormed, Signable;
    SignStep(c, s, q);
    assert [SigningReturned(q, true)][1..] == [];
  }

  lemma GoneIsNotSigned(c: Config, s: State, q: nat, i: ValidIntent, extras: Option<Extras>)
    requires q !in s.handlers
    ensures Runs(c, s, LastLabels(c, q, i, extras)).None?
  {
    hide Step, Runs, Builders.WellFormed;
    NotThere(c, s, q);
    if c.rpc(i.chainId) {
      NoHandlerNoStep(c, s, Estimated(q, extras), q);
      RunsFirst(c, s, Estimated(q, extras), [SigningReturned(q, true)]);
    }
  }

  lemma NoHandlerNoStep(c: Config, s: State, l: Label, q: nat)
    requires Drives(l, q) && q !in s.handlers
    ensures Step(c, s, l).None?
  {
    hide Builders.WellFormed;
  }

  /** An allowed job is signed exactly when the key is unlocked and the signer takes the request. */
  lemma AllowedGate(c: Config, s: State, q: nat, job: Job, i: ValidIntent, plan: BuildPlan,
                    extras: Option<Extras>, step: nat)
    requires AllowedJob(job, i, plan)
    ensures var u := OnAuthorize(s, q, job, extras); var t := u.(step := step);
      (Runs(c, t, [SigningReturned(q, true)]).Some? <==>
         Text.Lower(i.wallet) in s.unlocked && Signable(c.keccak, plan.tx, extras)) &&
      (Runs(c, t, [SigningReturned(q, true)]).Some? ==>
         SignedUnasked(s.signatures, Runs(c, t, [SigningReturned(q, true)]).value.signatures, i, plan, extras))
  {
    hide OnAuthorize, Step, Runs, Builders.WellFormed, Text.Lower, SignedUnasked, Signable;
    AuthorizeFrame(s, q, job, extras);
    var u := OnAuthorize(s, q, job, extras);
    var t := u.(step := step);
    if Text.Lower(i.wallet) in s.unlocked {
      if Signable(c.keccak, plan.tx, extras) {
        LastIsSigned(c, t, q, i, plan);
      } else {
        UnsignableStep(c, t, q);
        NoFirstStep(c, t, SigningReturned(q, true));
      }
    } else {
      NotThere(c, t, q);
    }
  }

  lemma NoFirstStep(c: Config, s: State, l: Label)
    requires Step(c, s, l).None?
    ensures Runs(c, s, [l]).None?
  {
    hide Step;
  }

  lemma NotThere(c: Config, s: State, q: nat)
    requires q !in s.handlers
    ensures Runs(c, s, [SigningReturned(q, true)]).None?
  {
    hide Step, Runs, Builders.WellFormed;
    NoHandlerNoStep(c, s, SigningReturned(q, true), q);
    NoFirstStep(c, s, SigningReturned(q, true));
  }

  /** sign-and-send without a token, from any state: it signs exactly when the decision without a
      score is allow, the key is unlocked and the signer takes the request. */
  lemma UnaskedSignIff(c: Config, s: State, i: ValidIntent, client: Option<Builders.OneInchReply>, plan: BuildPlan,
                       r: string, extras: Option<Extras>)
    requires Builders.BuildFromIntent(c.keccak, i, client) == Ok(plan) && r !in s.prompts
    ensures var t := Runs(c, s, SignLabels(c, s.nextPid, i, client, r, extras));
      (t.Some? <==>
         Decision(c, s, i, None) == Policy.Allow && Text.Lower(i.wallet) in s.unlocked &&
         Signable(c.keccak, plan.tx, FeesFound(c, i, extras))) &&
      (t.Some? ==> SignedUnasked(s.signatures, t.value.signatures, i, plan, FeesFound(c, i, extras)))
  {
    hide Step, Runs, Builders.WellFormed, Builders.BuildFromIntent, OnSignPlan, SignedUnasked, Decision;
    hide Text.Lower, LastLabels, Signable;
    var q := s.nextPid;
    ReceiveSignStep(c, s, i, None);
    var t := Step(c, s, ReceiveSign(i, None)).value;
    RunsFirst(c, s, ReceiveSign(i, None), [Built(q, client, r)] + LastLabels(c, q, i, extras));
    SameDecision(c, s, t, i, None);
    SignPlanStep(c, t, q, i, None, client, plan, r);
    RunsFirst(c, t, Built(q, client, r), LastLabels(c, q, i, extras));
    AfterPlan(c, t, q, i, client, plan, extras);
  }

  lemma AfterPlan(c: Config, s: State, q: nat, i: ValidIntent, client: Option<Builders.OneInchReply>, plan: BuildPlan,
                  extras: Option<Extras>)
    requires q in s.handlers
    ensures var u := OnSignPlan(c, s, q, i, None, client, plan);
      var t := Runs(c, u.(step := u.step + 1), LastLabels(c, q, i, extras));
      (t.Some? <==>
         Decision(c, s, i, None) == Policy.Allow && Text.Lower(i.wallet) in s.unlocked &&
         Signable(c.keccak, plan.tx, FeesFound(c, i, extras))) &&
      (t.Some? ==> SignedUnasked(s.signatures, t.value.signatures, i, plan, FeesFound(c, i, extras)))
  {
    hide Runs, Step, Builders.WellFormed, SignedUnasked, Text.Lower, Charge, Decision, OnAuthorize, LastLabels, Recent;
    hide Signable;
    var u, v := OnSignPlan(c, s, q, i, None, client, plan), Charge(c, s, i, None);
    ChargeFrame(c, s, i, None);
    match Decision(c, s, i, None)
    case Deny => GoneIsNotSigned(c, u.(step := u.step + 1), q, i, extras);
    case RequireApproval => GoneIsNotSigned(c, u.(step := u.step + 1), q, i, extras);
    case Allow => AfterProceed(c, v, q, NewJob(c, s, i, None, client, plan), i, plan, extras);
  }

  lemma AfterProceed(c: Config, s: State, q: nat, job: Job, i: ValidIntent, plan: BuildPlan, extras: Option<Extras>)
    requires q in s.handlers && AllowedJob(job, i, plan)
    ensures var u := Proceed(c, s, q, job);
      var t := Runs(c, u.(step := u.step + 1), LastLabels(c, q, i, extras));
      (t.Some? <==>
         Text.Lower(i.wallet) in s.unlocked && Signable(c.keccak, plan.tx, FeesFound(c, i, extras))) &&
      (t.Some? ==> SignedUnasked(s.signatures, t.value.signatures, i, plan, FeesFound(c, i, extras)))
  {
    hide Runs, Step, Builders.WellFormed, SignedUnasked, Text.Lower, OnAuthorize, Signable;
    var u := Proceed(c, s, q, job);
    if c.rpc(i.chainId) {
      var t := u.(step := u.step + 1);
      EstimatedStep(c, t, q, job, extras);
      RunsFirst(c, t, Estimated(q, extras), [SigningReturned(q, true)]);
      AllowedGate(c, t, q, job, i, plan, extras, OnAuthorize(t, q, job, extras).step + 1);
    } else {
      AllowedGate(c, s, q, job, i, plan, None, u.step + 1);
    }
  }

  /** What the program builds itself the signer takes exactly when the address it goes to is spelled
      in lower case or as its checksum, and the fees found fit. */
  lemma BuiltIsSignableIff(c: Config, i: ValidIntent, client: Option<Builders.OneInchReply>, plan: BuildPlan,
                           extras: Option<Extras>)
    requires Builders.BuildFromIntent(c.keccak, i, client) == Ok(plan) && !Builders.ViaOneInch(i, client)
    ensures Text.IsAddress(Builders.Target(i.action))
    ensures Signable(c.keccak, plan.tx, extras) <==>
      Builders.Encodable(c.keccak, Builders.Target(i.action)) && (extras.Some? ==> FeesFit(extras.value))
  {
    hide Builders.BuildFromIntent, Builders.ViaOneInch, Builders.Target, Builders.WellFormed, Builders.Encodable;
    hide Text.IsAddress, Text.AllHex, FeesFit;
    Builders.BuiltIsRegular(c.keccak, i, client);
    Builders.AddressIsNotEmpty(plan.tx.to);
  }

  /** An allowed swap on the server's router has the transaction signed that the server replies,
      exactly when the signer takes it: nothing else limits it. */
  lemma ServerChoosesWhatIsSigned(c: Config, run: seq<Label>, i: ValidIntent, to: string, data: string, value: int,
                                  r: string, extras: Option<Extras>)
    requires Exec(c, run).Some? && Builders.NamesServer(i)
    requires var s := Exec(c, run).value;
      r !in s.prompts && Decision(c, s, i, None) == Policy.Allow && Text.Lower(i.wallet) in s.unlocked
    ensures var s := Exec(c, run).value;
      var t := Exec(c, run + SignLabels(c, s.nextPid, i, Some(Builders.Reply(to, data, value)), r, extras));
      var tx := TxRequest(to, data, value, i.chainId);
      (t.Some? <==> Signable(c.keccak, tx, FeesFound(c, i, extras))) &&
      (t.Some? ==>
         |t.value.signatures| == |s.signatures| + 1 && t.value.signatures[|s.signatures|].job.plan.tx == tx)
  {
    hide Exec, Runs, Builders.WellFormed, Builders.BuildFromIntent, Builders.NamesServer, SignLabels;
    hide Decision, Text.Lower, Signable;
    var s, client := Exec(c, run).value, Some(Builders.Reply(to, data, value));
    Builders.ServerChoosesTheTransaction(c.keccak, i, to, data, value);
    var plan := Builders.BuildFromIntent(c.keccak, i, client).value;
    UnaskedSignIff(c, s, i, client, plan, r, extras);
    ExecThenRuns(c, run, SignLabels(c, s.nextPid, i, client, r, extras));
  }

  // ---- a refusal, and a signature all the same ----

  /** An approval request that is refused. */
  function RefusalLabels(c: Config, p: nat, i: ValidIntent, client: Option<Builders.OneInchReply>, risk: nat, r: string,
                         tok: string): seq<Label> {
    [ReceiveApprove(i)] +
    ([Built(p, client, r)] +
     ((if c.rpc(i.chainId) then [Simulated(p, Some(risk), r)] else []) +
      ([ReplyLabel(c, r, false)] + [PromptSettled(p, tok)])))
  }

  predicate AfterRefusal(s: State, t: State, i: Intent, r: string) {
    && t.now == s.now && t.rate == RateLimit.Record(s.rate, i.wallet, s.now)
    && t.prompts.Keys == s.prompts.Keys + {r} && t.unlocked == s.unlocked && t.signatures == s.signatures
    && t.issues == s.issues && r in t.answers && !t.answers[r].approved
  }

  lemma RefusalRuns(c: Config, s: State, i: ValidIntent, client: Option<Builders.OneInchReply>, plan: BuildPlan,
                    risk: nat, r: string, tok: string)
    requires Inv(c, s) && Builders.BuildFromIntent(c.keccak, i, client) == Ok(plan)
    requires r !in s.prompts && tok !in s.issues
    requires Decision(c, s, i, Some(ScoreSeen(c, i, risk))) == Policy.RequireApproval
    ensures var t := Runs(c, s, RefusalLabels(c, s.nextPid, i, client, risk, r, tok));
      t.Some? && AfterRefusal(s, t.value, i, r)
  {
    hide Inv, Step, Runs, Builders.WellFormed, Builders.BuildFromIntent, Decision, ReplyLabel, Pending.Add;
    hide RateLimit.Record;
    var p := s.nextPid;
    var no := [ReplyLabel(c, r, false)] + [PromptSettled(p, tok)];
    var ask := (if c.rpc(i.chainId) then [Simulated(p, Some(risk), r)] else []) + no;
    ReceiveApproveStep(c, s, i);
    RunsFirst(c, s, ReceiveApprove(i), [Built(p, client, r)] + ask);
    var t := Step(c, s, ReceiveApprove(i)).value;
    SameDecision(c, s, t, i, Some(ScoreSeen(c, i, risk)));
    RunsFirst(c, t, Built(p, client, r), ask);
    if c.rpc(i.chainId) {
      SimulateStep(c, t, p, i, client, plan, r);
      var u := Step(c, t, Built(p, client, r)).value;
      SameDecision(c, t, u, i, Some(risk));
      AskAfterSimulation(c, u, p, i, plan, risk, r);
      RunsFirst(c, u, Simulated(p, Some(risk), r), no);
      NoRuns(c, s, u, p, i, plan, r, tok);
    } else {
      AskAfterBuild(c, t, p, i, client, plan, r);
      assert ask == no;
      NoRuns(c, s, t, p, i, plan, r, tok);
    }
  }

  /** u is s but for its handlers and its step. */
  lemma NoRuns(c: Config, s: State, u: State, p: nat, i: ValidIntent, plan: BuildPlan, r: string, tok: string)
    requires Inv(c, s) && r !in s.prompts && tok !in s.issues
    requires u == s.(handlers := u.handlers, nextPid := u.nextPid, step := u.step)
    ensures var t := Runs(c, Asked(c, u, p, i, plan, r), [ReplyLabel(c, r, false)] + [PromptSettled(p, tok)]);
      t.Some? && AfterRefusal(s, t.value, i, r)
  {
    hide Inv, Step, Runs, Builders.WellFormed, ReplyLabel, RateLimit.Record;
    var v := Asked(c, u, p, i, plan, r);
    JustAsked(c, s, u, p, i, plan, r);
    ReplyStep(c, v, r, false);
    RunsFirst(c, v, ReplyLabel(c, r, false), [PromptSettled(p, tok)]);
    var w := Step(c, v, ReplyLabel(c, r, false)).value;
    RefusedStep(c, w, p, i, plan, r, tok);
    assert [PromptSettled(p, tok)] == [PromptSettled(p, tok)] + [];
    RunsFirst(c, w, PromptSettled(p, tok), []);
    NothingRuns(c, Step(c, w, PromptSettled(p, tok)).value);
  }

  lemma NothingRuns(c: Config, s: State)
    ensures Runs(c, s, []) == Some(s)
  {
  }

  lemma JustAsked(c: Config, s: State, u: State, p: nat, i: ValidIntent, plan: BuildPlan, r: string)
    requires Inv(c, s) && r !in s.prompts && u == s.(handlers := u.handlers, nextPid := u.nextPid, step := u.step)
    ensures OpenPrompt(c, Asked(c, u, p, i, plan, r), r)
  {
    hide PromptsOk, IssuesOk, TokensOk, SpendingsOk, SignaturesOk, HandlersOk, PidsOk, HistoryOk, PendingOk;
    hide Builders.WellFormed, RateLimit.Record;
    var v := Asked(c, u, p, i, plan, r);
    assert p in v.handlers && v.handlers[p].ApprovePrompting? && v.handlers[p].request == r;
  }

  /** Where approval was asked for, the decision without a score is allow exactly when only the
      score asked for it. */
  lemma OnlyTheScoreAsked(i: Intent, c: PolicyConfig, score: nat, recent: nat)
    requires Policy.Decide(i, c, Policy.Options(Some(score), Some(recent))) == Policy.RequireApproval
    requires recent + 1 < c.maxTxPerHour
    ensures Policy.Decide(i, c, Policy.Options(None, Some(recent + 1))) == Policy.Allow <==>
      score > c.maxRiskScore && Policy.Value(i) <= Text.BigIntOf(c.requireApprovalAbove)
  {
    hide Policy.AnyTokenRejected, Policy.ContractRejected, Policy.RecipientRejected, Policy.OverCap, Text.BigIntOf;
  }

  /** Against docs/configuration.md:94, where a score above the maximum requires the user's approval:
      from every reachable state, an intent is prompted for and refused, and then signed without a
      token, exactly when its score is above the maximum, its value is not above the threshold and
      the signer takes the request.  Above the threshold the signature needs a yes. */
  lemma RefusedIntentIsSignedIff(c: Config, run: seq<Label>, i: ValidIntent, risk: nat, r: string, tok: string,
                                 client: Option<Builders.OneInchReply>, plan: BuildPlan,
                                 client': Option<Builders.OneInchReply>, plan': BuildPlan,
                                 r': string, extras: Option<Extras>)
    requires Exec(c, run).Some?
    requires Builders.BuildFromIntent(c.keccak, i, client) == Ok(plan)
    requires Builders.BuildFromIntent(c.keccak, i, client') == Ok(plan')
    requires var s := Exec(c, run).value;
      && r !in s.prompts && tok !in s.issues && r' !in s.prompts && r' != r && Text.Lower(i.wallet) in s.unlocked
      && Decision(c, s, i, Some(ScoreSeen(c, i, risk))) == Policy.RequireApproval
      && Recent(s, i) + 1 < c.policy.maxTxPerHour
    ensures var s := Exec(c, run).value;
      var refusal := RefusalLabels(c, s.nextPid, i, client, risk, r, tok);
      Exec(c, run + refusal).Some? &&
      var t := Exec(c, run + refusal).value;
      r in t.answers && !t.answers[r].approved && t.signatures == s.signatures &&
      var u := Exec(c, run + refusal + SignLabels(c, t.nextPid, i, client', r', extras));
      (u.Some? <==>
         ScoreSeen(c, i, risk) > c.policy.maxRiskScore &&
         Policy.Value(i) <= Text.BigIntOf(c.policy.requireApprovalAbove) &&
         Signable(c.keccak, plan'.tx, FeesFound(c, i, extras))) &&
      (u.Some? ==> SignedUnasked(s.signatures, u.value.signatures, i, plan', FeesFound(c, i, extras)))
  {
    hide Exec, Inv, Runs, Builders.WellFormed, Builders.BuildFromIntent, SignLabels, RefusalLabels, Policy.Decide;
    hide Text.Lower, Text.BigIntOf, Recent, SignedUnasked, RateLimit.Record, Signable;
    var s := Exec(c, run).value;
    RunKeepsInv(c, run);
    RefusalRuns(c, s, i, client, plan, risk, r, tok);
    var refusal := RefusalLabels(c, s.nextPid, i, client, risk, r, tok);
    ExecThenRuns(c, run, refusal);
    var t := Exec(c, run + refusal).value;
    Progress.RecentAfterTick(s, t, i);
    OnlyTheScoreAsked(i, c.policy, ScoreSeen(c, i, risk), Recent(s, i));
    UnaskedSignIff(c, t, i, client', plan', r', extras);
    ExecThenRuns(c, run + refusal, SignLabels(c, t.nextPid, i, client', r', extras));
  }

  /** One such run: a transfer of five wei, prompted for at a score of 60 where 50 is allowed, is
      refused and then signed. */
  lemma RefusedAndSigned(c: Config, key: string)
    requires c.policy == Builders.NoCaps(c.policy.maxTxPerHour) && c.policy.maxTxPerHour > 1 && c.rpc(1)
    ensures var i := Builders.SmallTransfer('a');
      var refused := [KeyUnlocked(i.wallet, key)] + RefusalLabels(c, 0, i, None, 60, "first", "token");
      Exec(c, refused).Some? &&
      var t := Exec(c, refused).value;
      "first" in t.answers && !t.answers["first"].approved && t.signatures == [] &&
      var u := Exec(c, refused + SignLabels(c, t.nextPid, i, None, "second", None));
      u.Some? && |u.value.signatures| == 1 && u.value.signatures[0].job.plan.tx.value == 5
  {
    hide Exec, RefusalLabels, SignLabels, Policy.Decide, Builders.WellFormed, Signable, Text.Lower, Recent;
    hide Builders.BuildFromIntent, Builders.SmallTransfer, Decision, Text.BigIntOf, Policy.Value, Text.IsAddress;
    var i := Builders.SmallTransfer('a');
    var run := [KeyUnlocked(i.wallet, key)];
    SmallPlan(c);
    var plan := Builders.BuildFromIntent(c.keccak, i, None).value;
    Unlocking(c, i, key);
    HighScore(c, Exec(c, run).value);
    RefusedIntentIsSignedIff(c, run, i, 60, "first", "token", None, plan, None, plan, "second", None);
  }

  /** The small transfer builds, and the signer takes it. */
  lemma SmallPlan(c: Config)
    ensures var i := Builders.SmallTransfer('a');
      Builders.BuildFromIntent(c.keccak, i, None).Ok? &&
      var tx := Builders.BuildFromIntent(c.keccak, i, None).value.tx;
      tx.value == 5 && Signable(c.keccak, tx, None)
  {
    hide Builders.WellFormed, Text.BigIntOf, Builders.Encodable, Text.IsAddress, Text.AllHex, Builders.TxRequestHash;
    var i := Builders.SmallTransfer('a');
    var plan := Builders.BuildFromIntent(c.keccak, i, None).value;
    BuiltIsSignableIff(c, i, None, plan, None);
    assert Builders.Encodable(c.keccak, Builders.Target(i.action)) by { Builders.SmallTargetEncodes(c.keccak); }
  }

  lemma HighScore(c: Config, s: State)
    requires c.policy == Builders.NoCaps(c.policy.maxTxPerHour) && c.policy.maxTxPerHour > 1 && c.rpc(1)
    ensures var i := Builders.SmallTransfer('a');
      Recent(s, i) == 0 ==>
        Decision(c, s, i, Some(ScoreSeen(c, i, 60))) == Policy.RequireApproval &&
        ScoreSeen(c, i, 60) > c.policy.maxRiskScore &&
        Policy.Value(i) <= Text.BigIntOf(c.policy.requireApprovalAbove)
  {
    hide Policy.Decide, Recent, Builders.WellFormed;
    var i := Builders.SmallTransfer('a');
    Builders.NoCapsAllowValue(i, c.policy.maxTxPerHour, Policy.Options(Some(60), Some(0)));
    assert Text.BigIntOf("9") == 9;
  }

  lemma Unlocking(c: Config, i: Intent, key: string)
    ensures var s := INIT.(unlocked := INIT.unlocked[Text.Lower(i.wallet) := key], step := 1);
      Exec(c, [KeyUnlocked(i.wallet, key)]) == Some(s) && Recent(s, i) == 0
  {
    hide Text.Lower;
    assert [KeyUnlocked(i.wallet, key)][..0] == [];
  }
}
