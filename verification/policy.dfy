/** The policy engine: eight rules, one reason per fired rule, the most severe verdict wins. */
module Policy {
  import opened Types
  import opened Text

  datatype Verdict = Allow | RequireApproval | Deny {
    function Rank(): nat {
      match this case Allow => 0 case RequireApproval => 1 case Deny => 2
    }
  }

  /** What the caller knows besides the intent; either part may be missing. */
  datatype Options = Options(riskScore: Option<int>, recentTxCount: Option<nat>)

  datatype Reason =
    | ChainNotAllowed
    | TokenNotListed(token: string)
    | ContractNotListed(contract: string)
    | ValueOverMax
    | ValueOverThreshold
    | ApprovalOverMax
    | RecipientNotListed(recipient: string)
    | RiskOverMax
    | RateLimited
    | AllChecksPassed

  datatype PolicyDecision = PolicyDecision(verdict: Verdict, reasons: seq<Reason>)

  function Severity(r: Reason): Verdict {
    match r
    case AllChecksPassed => Allow
    case ValueOverThreshold => RequireApproval
    case RiskOverMax => RequireApproval
    case _ => Deny
  }

  function Worse(v: Verdict, w: Verdict): Verdict {
    if v.Rank() >= w.Rank() then v else w
  }

  function MaxSeverity(rs: seq<Reason>): Verdict {
    if rs == [] then Allow else Worse(MaxSeverity(rs[..|rs| - 1]), Severity(rs[|rs| - 1]))
  }

  // ---- the rules, one predicate each ----

  /** An empty allowlist stands for everything. */
  predicate ListRejects(list: seq<string>, address: string) {
    list != [] && !Listed(list, address)
  }

  /** A cap of zero is no cap. */
  predicate OverCap(capText: string, amount: nat) {
    0 < BigIntOf(capText) < amount
  }

  function Value(i: Intent): nat { BigIntOf(ValueText(i.action)) }

  predicate ContractRejected(i: Intent, c: PolicyConfig) {
    match ContractAddress(i.action)
    case Some(contract) => contract != "" && ListRejects(c.contractAllowlist, contract)
    case None => false
  }

  predicate RecipientRejected(i: Intent, c: PolicyConfig) {
    match Recipient(i.action)
    case Some(to) => ListRejects(c.recipientAllowlist, to)
    case None => false
  }

  predicate RiskTooHigh(c: PolicyConfig, o: Options) {
    o.riskScore.Some? && o.riskScore.value > c.maxRiskScore
  }

  predicate RateExceeded(c: PolicyConfig, o: Options) {
    o.recentTxCount.Some? && o.recentTxCount.value >= c.maxTxPerHour
  }

  predicate AnyTokenRejected(i: Intent, c: PolicyConfig) {
    exists k | 0 <= k < |TokenAddresses(i.action)| ::
      ListRejects(c.tokenAllowlist, TokenAddresses(i.action)[k])
  }

  predicate Denied(i: Intent, c: PolicyConfig, o: Options) {
    || i.chainId !in c.allowedChains
    || AnyTokenRejected(i, c)
    || ContractRejected(i, c)
    || OverCap(c.maxValueWei, Value(i))
    || (i.action.Approve? && OverCap(c.maxApprovalAmount, Value(i)))
    || RecipientRejected(i, c)
    || RateExceeded(c, o)
  }

  predicate NeedsApproval(i: Intent, c: PolicyConfig, o: Options) {
    Value(i) > BigIntOf(c.requireApprovalAbove) || RiskTooHigh(c, o)
  }

  function Decide(i: Intent, c: PolicyConfig, o: Options): Verdict {
    if Denied(i, c, o) then Deny
    else if NeedsApproval(i, c, o) then RequireApproval
    else Allow
  }

  /** How often a reason is due: a token once per failing occurrence, any other rule once. */
  function Occurrences(tokens: seq<string>, list: seq<string>, token: string): nat {
    if tokens == [] then 0
    else
      var last := tokens[|tokens| - 1];
      Occurrences(tokens[..|tokens| - 1], list, token) +
      (if last == token && ListRejects(list, last) then 1 else 0)
  }

  function Due(r: Reason, i: Intent, c: PolicyConfig, o: Options): nat {
    var fires: bool := match r
      case ChainNotAllowed => i.chainId !in c.allowedChains
      case TokenNotListed(t) => Occurrences(TokenAddresses(i.action), c.tokenAllowlist, t) > 0
      case ContractNotListed(a) => ContractAddress(i.action) == Some(a) && ContractRejected(i, c)
      case ValueOverMax => OverCap(c.maxValueWei, Value(i))
      case ValueOverThreshold => Value(i) > BigIntOf(c.requireApprovalAbove)
      case ApprovalOverMax => i.action.Approve? && OverCap(c.maxApprovalAmount, Value(i))
      case RecipientNotListed(a) => Recipient(i.action) == Some(a) && RecipientRejected(i, c)
      case RiskOverMax => RiskTooHigh(c, o)
      case RateLimited => RateExceeded(c, o)
      case AllChecksPassed => Decide(i, c, o) == Allow;
    if !fires then 0
    else if r.TokenNotListed? then Occurrences(TokenAddresses(i.action), c.tokenAllowlist, r.token)
    else 1
  }

  /** rs, extended by r when the rule fires. */
  function Push(rs: seq<Reason>, fires: bool, r: Reason): seq<Reason> {
    if fires then rs + [r] else rs
  }

  lemma PushSeverity(rs: seq<Reason>, fires: bool, r: Reason)
    ensures MaxSeverity(Push(rs, fires, r)) ==
      if fires then Worse(MaxSeverity(rs), Severity(r)) else MaxSeverity(rs)
  {
    assert (rs + [r])[..|rs|] == rs;
  }

  function TokenReasons(rs: seq<Reason>, tokens: seq<string>, list: seq<string>): (out: seq<Reason>) {
    if tokens == [] then rs
    else
      var last := tokens[|tokens| - 1];
      Push(TokenReasons(rs, tokens[..|tokens| - 1], list), ListRejects(list, last), TokenNotListed(last))
  }

  function TargetReasons(i: Intent, c: PolicyConfig): seq<Reason> {
    var chain := Push([], i.chainId !in c.allowedChains, ChainNotAllowed);
    var tokens := TokenReasons(chain, TokenAddresses(i.action), c.tokenAllowlist);
    Push(tokens, ContractRejected(i, c), ContractNotListed(ContractAddress(i.action).GetOr("")))
  }

  function AmountReasons(rs: seq<Reason>, i: Intent, c: PolicyConfig): seq<Reason> {
    var max := Push(rs, OverCap(c.maxValueWei, Value(i)), ValueOverMax);
    var threshold := Push(max, Value(i) > BigIntOf(c.requireApprovalAbove), ValueOverThreshold);
    Push(threshold, i.action.Approve? && OverCap(c.maxApprovalAmount, Value(i)), ApprovalOverMax)
  }

  function TailReasons(rs: seq<Reason>, i: Intent, c: PolicyConfig, o: Options): seq<Reason> {
    var recipient := Push(rs, RecipientRejected(i, c), RecipientNotListed(Recipient(i.action).GetOr("")));
    var risk := Push(recipient, RiskTooHigh(c, o), RiskOverMax);
    var rate := Push(risk, RateExceeded(c, o), RateLimited);
    Push(rate, Decide(i, c, o) == Allow, AllChecksPassed)
  }

  function Reasons(i: Intent, c: PolicyConfig, o: Options): seq<Reason> {
    TailReasons(AmountReasons(TargetReasons(i, c), i, c), i, c, o)
  }

  lemma {:induction false} TokenReasonsCount(rs: seq<Reason>, tokens: seq<string>, list: seq<string>, r: Reason)
    ensures multiset(TokenReasons(rs, tokens, list))[r] ==
      multiset(rs)[r] + (if r.TokenNotListed? then Occurrences(tokens, list, r.token) else 0)
  {
    if tokens != [] { TokenReasonsCount(rs, tokens[..|tokens| - 1], list, r); }
  }

  lemma {:induction false} TokenReasonsSeverity(rs: seq<Reason>, tokens: seq<string>, list: seq<string>)
    ensures MaxSeverity(TokenReasons(rs, tokens, list)) ==
      if exists k | 0 <= k < |tokens| :: ListRejects(list, tokens[k]) then Deny else MaxSeverity(rs)
  {
    if tokens != [] {
      var n := |tokens| - 1;
      TokenReasonsSeverity(rs, tokens[..n], list);
      PushSeverity(TokenReasons(rs, tokens[..n], list), ListRejects(list, tokens[n]), TokenNotListed(tokens[n]));
      assert tokens == tokens[..n] + [tokens[n]];
    }
  }

  lemma TargetSeverity(i: Intent, c: PolicyConfig)
    ensures MaxSeverity(TargetReasons(i, c)) ==
      if i.chainId !in c.allowedChains || AnyTokenRejected(i, c) || ContractRejected(i, c) then Deny else Allow
  {
    var chain := Push([], i.chainId !in c.allowedChains, ChainNotAllowed);
    var tokens := TokenReasons(chain, TokenAddresses(i.action), c.tokenAllowlist);
    PushSeverity([], i.chainId !in c.allowedChains, ChainNotAllowed);
    TokenReasonsSeverity(chain, TokenAddresses(i.action), c.tokenAllowlist);
    PushSeverity(tokens, ContractRejected(i, c), ContractNotListed(ContractAddress(i.action).GetOr("")));
  }

  lemma TargetCount(i: Intent, c: PolicyConfig, o: Options, r: Reason)
    ensures multiset(TargetReasons(i, c))[r] ==
      if r.ChainNotAllowed? || r.TokenNotListed? || r.ContractNotListed? then Due(r, i, c, o) else 0
  {
    TokenReasonsCount(Push([], i.chainId !in c.allowedChains, ChainNotAllowed),
                      TokenAddresses(i.action), c.tokenAllowlist, r);
  }

  lemma AmountSeverity(rs: seq<Reason>, i: Intent, c: PolicyConfig)
    ensures MaxSeverity(AmountReasons(rs, i, c)) ==
      if MaxSeverity(rs) == Deny || OverCap(c.maxValueWei, Value(i)) ||
         (i.action.Approve? && OverCap(c.maxApprovalAmount, Value(i))) then Deny
      else if Value(i) > BigIntOf(c.requireApprovalAbove) then RequireApproval
      else MaxSeverity(rs)
  {
    hide Push, MaxSeverity, OverCap, Value, BigIntOf;
    var max := Push(rs, OverCap(c.maxValueWei, Value(i)), ValueOverMax);
    var threshold := Push(max, Value(i) > BigIntOf(c.requireApprovalAbove), ValueOverThreshold);
    PushSeverity(rs, OverCap(c.maxValueWei, Value(i)), ValueOverMax);
    PushSeverity(max, Value(i) > BigIntOf(c.requireApprovalAbove), ValueOverThreshold);
    PushSeverity(threshold, i.action.Approve? && OverCap(c.maxApprovalAmount, Value(i)), ApprovalOverMax);
  }

  lemma AmountCount(rs: seq<Reason>, i: Intent, c: PolicyConfig, o: Options, r: Reason)
    ensures multiset(AmountReasons(rs, i, c))[r] == multiset(rs)[r] +
      if r.ValueOverMax? || r.ValueOverThreshold? || r.ApprovalOverMax? then Due(r, i, c, o) else 0
  {
    hide OverCap, Value, BigIntOf;
  }

  lemma TailCount(rs: seq<Reason>, i: Intent, c: PolicyConfig, o: Options, r: Reason)
    ensures multiset(TailReasons(rs, i, c, o))[r] == multiset(rs)[r] +
      if r.RecipientNotListed? || r.RiskOverMax? || r.RateLimited? || r.AllChecksPassed? then Due(r, i, c, o) else 0
  {
    hide OverCap, Value, BigIntOf, Decide, ListRejects, RiskTooHigh, RateExceeded, Push, Occurrences;
    var recipient := Push(rs, RecipientRejected(i, c), RecipientNotListed(Recipient(i.action).GetOr("")));
    var risk := Push(recipient, RiskTooHigh(c, o), RiskOverMax);
    var rate := Push(risk, RateExceeded(c, o), RateLimited);
    PushCount(rs, RecipientRejected(i, c), RecipientNotListed(Recipient(i.action).GetOr("")), r);
    PushCount(recipient, RiskTooHigh(c, o), RiskOverMax, r);
    PushCount(risk, RateExceeded(c, o), RateLimited, r);
    PushCount(rate, Decide(i, c, o) == Allow, AllChecksPassed, r);
  }

  lemma PushCount(rs: seq<Reason>, fires: bool, x: Reason, r: Reason)
    ensures multiset(Push(rs, fires, x))[r] == multiset(rs)[r] + if fires && r == x then 1 else 0
  {
  }

  /** One reason per fired rule and per failing token occurrence, and no others. */
  lemma ReasonsAreTheDueOnes(i: Intent, c: PolicyConfig, o: Options, r: Reason)
    ensures multiset(Reasons(i, c, o))[r] == Due(r, i, c, o)
  {
    hide TargetReasons, AmountReasons, TailReasons, Due;
    TargetCount(i, c, o, r);
    AmountCount(TargetReasons(i, c), i, c, o, r);
    TailCount(AmountReasons(TargetReasons(i, c), i, c), i, c, o, r);
    assert r.ChainNotAllowed? || r.TokenNotListed? || r.ContractNotListed? || r.ValueOverMax? ||
           r.ValueOverThreshold? || r.ApprovalOverMax? || r.RecipientNotListed? || r.RiskOverMax? ||
           r.RateLimited? || r.AllChecksPassed?;
  }

  /** The rule a reason comes from, in the order the rules are tried. */
  function RuleNumber(r: Reason): nat {
    match r
    case ChainNotAllowed => 1
    case TokenNotListed(_) => 2
    case ContractNotListed(_) => 3
    case ValueOverMax => 4
    case ValueOverThreshold => 5
    case ApprovalOverMax => 6
    case RecipientNotListed(_) => 7
    case RiskOverMax => 8
    case RateLimited => 9
    case AllChecksPassed => 10
  }

  predicate UpToRule(rs: seq<Reason>, n: nat) {
    (forall j, k | 0 <= j < k < |rs| :: RuleNumber(rs[j]) <= RuleNumber(rs[k])) &&
    (forall k | 0 <= k < |rs| :: RuleNumber(rs[k]) <= n)
  }

  lemma PushInOrder(rs: seq<Reason>, fires: bool, r: Reason, n: nat)
    requires UpToRule(rs, n) && n <= RuleNumber(r)
    ensures UpToRule(Push(rs, fires, r), RuleNumber(r))
  {
  }

  lemma {:induction false} TokensInOrder(rs: seq<Reason>, tokens: seq<string>, list: seq<string>)
    requires UpToRule(rs, 1)
    ensures UpToRule(TokenReasons(rs, tokens, list), 2)
  {
    hide UpToRule;
    if tokens == [] {
      assert UpToRule(rs, 2) by { PushInOrder(rs, false, TokenNotListed(""), 1); }
    } else {
      var last := tokens[|tokens| - 1];
      TokensInOrder(rs, tokens[..|tokens| - 1], list);
      PushInOrder(TokenReasons(rs, tokens[..|tokens| - 1], list), ListRejects(list, last), TokenNotListed(last), 2);
    }
  }

  /** The reasons come in the order of the rules. */
  lemma ReasonsAreInOrder(i: Intent, c: PolicyConfig, o: Options)
    ensures UpToRule(Reasons(i, c, o), 10)
  {
    hide UpToRule, TokenReasons, Push, Decide, OverCap, RecipientRejected, ContractRejected, RiskTooHigh, RateExceeded;
    hide BigIntOf;
    assert UpToRule([], 0) by { NoReasons(); }
    var chain := Push([], i.chainId !in c.allowedChains, ChainNotAllowed);
    PushInOrder([], i.chainId !in c.allowedChains, ChainNotAllowed, 0);
    var tokens := TokenReasons(chain, TokenAddresses(i.action), c.tokenAllowlist);
    TokensInOrder(chain, TokenAddresses(i.action), c.tokenAllowlist);
    PushInOrder(tokens, ContractRejected(i, c), ContractNotListed(ContractAddress(i.action).GetOr("")), 2);
    var targets := TargetReasons(i, c);
    var max := Push(targets, OverCap(c.maxValueWei, Value(i)), ValueOverMax);
    PushInOrder(targets, OverCap(c.maxValueWei, Value(i)), ValueOverMax, 3);
    var threshold := Push(max, Value(i) > BigIntOf(c.requireApprovalAbove), ValueOverThreshold);
    PushInOrder(max, Value(i) > BigIntOf(c.requireApprovalAbove), ValueOverThreshold, 4);
    PushInOrder(threshold, i.action.Approve? && OverCap(c.maxApprovalAmount, Value(i)), ApprovalOverMax, 5);
    var amounts := AmountReasons(targets, i, c);
    var recipient := Push(amounts, RecipientRejected(i, c), RecipientNotListed(Recipient(i.action).GetOr("")));
    PushInOrder(amounts, RecipientRejected(i, c), RecipientNotListed(Recipient(i.action).GetOr("")), 6);
    var risk := Push(recipient, RiskTooHigh(c, o), RiskOverMax);
    PushInOrder(recipient, RiskTooHigh(c, o), RiskOverMax, 7);
    var rate := Push(risk, RateExceeded(c, o), RateLimited);
    PushInOrder(risk, RateExceeded(c, o), RateLimited, 8);
    PushInOrder(rate, Decide(i, c, o) == Allow, AllChecksPassed, 9);
  }

  lemma NoReasons()
    ensures UpToRule([], 0)
  {
  }

  lemma TailSeverity(rs: seq<Reason>, i: Intent, c: PolicyConfig, o: Options)
    ensures MaxSeverity(TailReasons(rs, i, c, o)) ==
      if MaxSeverity(rs) == Deny || RecipientRejected(i, c) || RateExceeded(c, o) then Deny
      else if RiskTooHigh(c, o) then RequireApproval
      else MaxSeverity(rs)
  {
    hide Push, MaxSeverity, RecipientRejected, RiskTooHigh, RateExceeded, Decide;
    var recipient := Push(rs, RecipientRejected(i, c), RecipientNotListed(Recipient(i.action).GetOr("")));
    var risk := Push(recipient, RiskTooHigh(c, o), RiskOverMax);
    var rate := Push(risk, RateExceeded(c, o), RateLimited);
    PushSeverity(rs, RecipientRejected(i, c), RecipientNotListed(Recipient(i.action).GetOr("")));
    PushSeverity(recipient, RiskTooHigh(c, o), RiskOverMax);
    PushSeverity(risk, RateExceeded(c, o), RateLimited);
    PushSeverity(rate, Decide(i, c, o) == Allow, AllChecksPassed);
  }

  /** The verdict is the maximum of the fired rules' verdicts. */
  lemma DecideIsMaximum(i: Intent, c: PolicyConfig, o: Options)
    ensures MaxSeverity(Reasons(i, c, o)) == Decide(i, c, o)
  {
    hide TargetReasons, AmountReasons, TailReasons, AnyTokenRejected, ContractRejected, RecipientRejected;
    hide OverCap, Value, BigIntOf, RiskTooHigh, RateExceeded;
    TargetSeverity(i, c);
    AmountSeverity(TargetReasons(i, c), i, c);
    TailSeverity(AmountReasons(TargetReasons(i, c), i, c), i, c, o);
  }

  /** Rules 1 to 3: chain, tokens, contract. */
  method EvaluateTargets(i: Intent, c: PolicyConfig) returns (shouldDeny: bool, reasons: seq<Reason>)
    ensures reasons == TargetReasons(i, c)
    ensures shouldDeny <==> i.chainId !in c.allowedChains || AnyTokenRejected(i, c) || ContractRejected(i, c)
    ensures !shouldDeny ==> reasons == []
  {
    hide Listed;
    shouldDeny, reasons := false, [];
    if i.chainId !in c.allowedChains {
      shouldDeny := true;
      reasons := reasons + [ChainNotAllowed];
    }

    ghost var chain := reasons;
    var tokens := TokenAddresses(i.action);
    for k := 0 to |tokens|
      invariant shouldDeny <==>
        (i.chainId !in c.allowedChains || exists j | 0 <= j < k :: ListRejects(c.tokenAllowlist, tokens[j]))
      invariant reasons == TokenReasons(chain, tokens[..k], c.tokenAllowlist)
      invariant !shouldDeny ==> reasons == []
    {
      assert tokens[..k + 1][..k] == tokens[..k];
      if c.tokenAllowlist != [] && !Listed(c.tokenAllowlist, tokens[k]) {
        shouldDeny := true;
        reasons := reasons + [TokenNotListed(tokens[k])];
      }
    }
    assert tokens[..|tokens|] == tokens;

    var contract := ContractAddress(i.action);
    if contract.Some? && contract.value != "" && c.contractAllowlist != [] {
      if !Listed(c.contractAllowlist, contract.value) {
        shouldDeny := true;
        reasons := reasons + [ContractNotListed(contract.value)];
      }
    }
  }

  method Evaluate(i: Intent, c: PolicyConfig, o: Options) returns (d: PolicyDecision)
    ensures d.verdict == Decide(i, c, o) == MaxSeverity(d.reasons)
    ensures d.reasons == Reasons(i, c, o)
  {
    hide BigIntOf, Listed, MaxSeverity, TargetReasons;
    var shouldDeny, reasons := EvaluateTargets(i, c);
    var shouldRequireApproval := false;

    var value := BigIntOf(ValueText(i.action));
    if BigIntOf(c.maxValueWei) > 0 && value > BigIntOf(c.maxValueWei) {
      shouldDeny := true;
      reasons := reasons + [ValueOverMax];
    }
    if value > BigIntOf(c.requireApprovalAbove) {
      shouldRequireApproval := true;
      reasons := reasons + [ValueOverThreshold];
    }
    if i.action.Approve? {
      var amount := BigIntOf(i.action.amount);
      if BigIntOf(c.maxApprovalAmount) > 0 && amount > BigIntOf(c.maxApprovalAmount) {
        shouldDeny := true;
        reasons := reasons + [ApprovalOverMax];
      }
    }
    assert reasons == AmountReasons(TargetReasons(i, c), i, c);

    if (i.action.Transfer? || i.action.TransferNative?) && c.recipientAllowlist != [] {
      if !Listed(c.recipientAllowlist, i.action.to) {
        shouldDeny := true;
        reasons := reasons + [RecipientNotListed(i.action.to)];
      }
    }
    if o.riskScore.Some? && o.riskScore.value > c.maxRiskScore {
      shouldRequireApproval := true;
      reasons := reasons + [RiskOverMax];
    }
    if o.recentTxCount.Some? && o.recentTxCount.value >= c.maxTxPerHour {
      shouldDeny := true;
      reasons := reasons + [RateLimited];
    }

    DecideIsMaximum(i, c, o);
    if shouldDeny {
      return PolicyDecision(Deny, reasons);
    }
    if shouldRequireApproval {
      return PolicyDecision(RequireApproval, reasons);
    }
    if |reasons| == 0 {
      reasons := reasons + [AllChecksPassed];
    }
    return PolicyDecision(Allow, reasons);
  }

  // ---- monotonicity ----

  predicate SameOptional(a: Option<string>, b: Option<string>) {
    match (a, b)
    case (Some(x), Some(y)) => SameLetters(x, y)
    case (None, None) => true
    case _ => false
  }

  /** j asks for the same thing as i up to letter case of addresses, and for no less of it. */
  predicate AsksAtLeast(j: Intent, i: Intent) {
    var ts, us := TokenAddresses(j.action), TokenAddresses(i.action);
    && j.chainId == i.chainId
    && j.action.Approve? == i.action.Approve?
    && |ts| == |us| && (forall k | 0 <= k < |ts| :: SameLetters(ts[k], us[k]))
    && SameOptional(ContractAddress(j.action), ContractAddress(i.action))
    && SameOptional(Recipient(j.action), Recipient(i.action))
    && Value(j) >= Value(i)
  }

  /** Every address of the tighter list is on the looser one; an empty list is loosest. */
  predicate TighterList(t: seq<string>, l: seq<string>) {
    l == [] || (t != [] && forall k | 0 <= k < |t| :: Listed(l, t[k]))
  }

  predicate TighterCap(t: string, l: string) {
    BigIntOf(l) == 0 || 0 < BigIntOf(t) <= BigIntOf(l)
  }

  predicate Tighter(t: PolicyConfig, l: PolicyConfig) {
    && TighterCap(t.maxValueWei, l.maxValueWei)
    && TighterCap(t.maxApprovalAmount, l.maxApprovalAmount)
    && TighterList(t.contractAllowlist, l.contractAllowlist)
    && TighterList(t.tokenAllowlist, l.tokenAllowlist)
    && TighterList(t.recipientAllowlist, l.recipientAllowlist)
    && (forall chain <- t.allowedChains :: chain in l.allowedChains)
    && t.maxRiskScore <= l.maxRiskScore
    && BigIntOf(t.requireApprovalAbove) <= BigIntOf(l.requireApprovalAbove)
    && t.maxTxPerHour <= l.maxTxPerHour
  }

  /** p knows of no less risk and no fewer recent transactions than o. */
  predicate KnowsAtLeast(p: Options, o: Options) {
    && (o.riskScore.Some? ==> p.riskScore.Some? && p.riskScore.value >= o.riskScore.value)
    && (o.recentTxCount.Some? ==> p.recentTxCount.Some? && p.recentTxCount.value >= o.recentTxCount.value)
  }

  lemma ListedIsMonotone(t: seq<string>, l: seq<string>, a: string, b: string)
    requires TighterList(t, l) && SameLetters(a, b) && l != []
    ensures Listed(t, a) ==> Listed(l, b)
  {
    forall k | 0 <= k < |t| && SameLetters(t[k], a) ensures Listed(l, b) {
      var m :| 0 <= m < |l| && SameLetters(l[m], t[k]);
      assert SameLetters(l[m], b);
    }
  }

  lemma EmptyHasNoLetters(a: string, b: string)
    requires SameLetters(a, b)
    ensures a == "" <==> b == ""
  {
    assert |Lower(a)| == |Lower(b)|;
  }

  lemma DenialIsMonotone(j: Intent, i: Intent, t: PolicyConfig, l: PolicyConfig, p: Options, o: Options)
    requires AsksAtLeast(j, i) && Tighter(t, l) && KnowsAtLeast(p, o)
    requires Denied(i, l, o)
    ensures Denied(j, t, p)
  {
    if AnyTokenRejected(i, l) {
      var k :| 0 <= k < |TokenAddresses(i.action)| && ListRejects(l.tokenAllowlist, TokenAddresses(i.action)[k]);
      ListedIsMonotone(t.tokenAllowlist, l.tokenAllowlist, TokenAddresses(j.action)[k], TokenAddresses(i.action)[k]);
    }
    if ContractRejected(i, l) {
      EmptyHasNoLetters(ContractAddress(j.action).value, ContractAddress(i.action).value);
      ListedIsMonotone(t.contractAllowlist, l.contractAllowlist,
                         ContractAddress(j.action).value, ContractAddress(i.action).value);
    }
    if RecipientRejected(i, l) {
      ListedIsMonotone(t.recipientAllowlist, l.recipientAllowlist,
                         Recipient(j.action).value, Recipient(i.action).value);
    }
  }

  /** Raising amounts, risk or recent count, or tightening the configuration, never
      softens the verdict. */
  lemma DecideIsMonotone(j: Intent, i: Intent, t: PolicyConfig, l: PolicyConfig, p: Options, o: Options)
    requires AsksAtLeast(j, i) && Tighter(t, l) && KnowsAtLeast(p, o)
    ensures Decide(j, t, p).Rank() >= Decide(i, l, o).Rank()
  {
    if Denied(i, l, o) { DenialIsMonotone(j, i, t, l, p, o); }
  }

  /** Only the letters' case differs. */
  predicate SameListLetters(l: seq<string>, m: seq<string>) {
    |l| == |m| && forall k | 0 <= k < |l| :: SameLetters(l[k], m[k])
  }

  predicate SameConfigLetters(c: PolicyConfig, d: PolicyConfig) {
    && c == d.(contractAllowlist := c.contractAllowlist, tokenAllowlist := c.tokenAllowlist,
               recipientAllowlist := c.recipientAllowlist)
    && SameListLetters(c.contractAllowlist, d.contractAllowlist)
    && SameListLetters(c.tokenAllowlist, d.tokenAllowlist)
    && SameListLetters(c.recipientAllowlist, d.recipientAllowlist)
  }

  lemma SameListIsTighter(l: seq<string>, m: seq<string>)
    requires SameListLetters(l, m)
    ensures TighterList(l, m) && TighterList(m, l)
  {
    forall k | 0 <= k < |l| ensures Listed(m, l[k]) && Listed(l, m[k]) {
      assert SameLetters(l[k], m[k]) && SameLetters(m[k], l[k]);
    }
  }

  lemma LetterCaseIsIgnored(j: Intent, i: Intent, c: PolicyConfig, d: PolicyConfig, o: Options)
    requires AsksAtLeast(j, i) && Value(j) == Value(i) && SameConfigLetters(c, d)
    ensures Decide(j, c, o) == Decide(i, d, o)
  {
    SameListIsTighter(c.contractAllowlist, d.contractAllowlist);
    SameListIsTighter(c.tokenAllowlist, d.tokenAllowlist);
    SameListIsTighter(c.recipientAllowlist, d.recipientAllowlist);
    DecideIsMonotone(j, i, c, d, o, o);
    DecideIsMonotone(i, j, d, c, o, o);
  }

  /** sign-and-send decides without a risk score.  Its verdict differs from the one that
      knows the score exactly when only the risk rule asked for approval. */
  lemma IgnoringRiskMattersIff(i: Intent, c: PolicyConfig, risk: int, recent: Option<nat>)
    ensures Decide(i, c, Options(None, recent)) != Decide(i, c, Options(Some(risk), recent)) <==>
      Decide(i, c, Options(None, recent)) == Allow && risk > c.maxRiskScore
  {
    var o := Options(None, recent);
    assert Denied(i, c, o) == Denied(i, c, o.(riskScore := Some(risk)));
  }

  /** Against docs/configuration.md:88-89, where a cap of "0" denies everything: the value rule
      fires for what exceeds the cap exactly when the cap is positive or there is no value, and
      likewise for approvals. */
  lemma CapsHoldIff(i: Intent, c: PolicyConfig, o: Options)
    ensures (Value(i) > BigIntOf(c.maxValueWei) ==> ValueOverMax in Reasons(i, c, o)) <==>
      BigIntOf(c.maxValueWei) > 0 || Value(i) == 0
    ensures i.action.Approve? ==>
      ((Value(i) > BigIntOf(c.maxApprovalAmount) ==> ApprovalOverMax in Reasons(i, c, o)) <==>
       BigIntOf(c.maxApprovalAmount) > 0 || Value(i) == 0)
  {
    hide Reasons, BigIntOf;
    ReasonsAreTheDueOnes(i, c, o, ValueOverMax);
    ReasonsAreTheDueOnes(i, c, o, ApprovalOverMax);
    assert ValueOverMax in Reasons(i, c, o) <==> multiset(Reasons(i, c, o))[ValueOverMax] > 0;
    assert ApprovalOverMax in Reasons(i, c, o) <==> multiset(Reasons(i, c, o))[ApprovalOverMax] > 0;
  }
}
