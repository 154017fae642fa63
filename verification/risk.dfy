/** The preflight risk context and the risk scorer, and their agreement with the policy. */
module Risk {
  import opened Types
  import opened Text
  import Policy

  const MAX_UINT256: nat := 0x1_0000000000000000_0000000000000000_0000000000000000_0000000000000000 - 1
  const HIGH_SLIPPAGE_BPS: nat := 300
  const ABNORMAL_GAS_THRESHOLD: nat := 400_000
  const MAX_RISK_SCORE: nat := 100

  lemma MaxUintIsTheLargestWord()
    ensures MAX_UINT256 + 1 == Pow16(64)
  {
    hide Pow16;
    SixteenToTheOne();
    PowersMultiply(32, 32);
    PowersMultiply(16, 16);
    PowersMultiply(8, 8);
    PowersMultiply(4, 4);
    PowersMultiply(2, 2);
    PowersMultiply(1, 1);
  }

  lemma SixteenToTheOne()
    ensures Pow16(1) == 16
  {
    assert Pow16(0) == 1;
  }

  lemma {:induction false} PowersMultiply(v: nat, w: nat)
    ensures Pow16(v + w) == Pow16(v) * Pow16(w)
  {
    if v > 0 { PowersMultiply(v - 1, w); }
  }

  datatype RiskContext = RiskContext(
    contractInAllowlist: bool,
    tokenInAllowlist: bool,
    slippageBps: nat,
    simulationReverted: bool,
    gasEstimate: nat,
    approvalAmount: Option<nat>,
    maxApprovalAmount: Option<nat>,
    valueWei: Option<nat>,
    maxValueWei: Option<nat>)

  datatype Penalty =
    | ContractNotInAllowlist
    | TokenNotInAllowlist
    | HighSlippage
    | LargeValue
    | UnboundedApproval
    | SimulationReverted
    | AbnormalGas

  function Points(p: Penalty): nat {
    match p
    case ContractNotInAllowlist => 40
    case TokenNotInAllowlist => 20
    case HighSlippage => 15
    case LargeValue => 20
    case UnboundedApproval => 25
    case SimulationReverted => 50
    case AbnormalGas => 10
  }

  predicate Applies(p: Penalty, x: RiskContext) {
    match p
    case ContractNotInAllowlist => !x.contractInAllowlist
    case TokenNotInAllowlist => !x.tokenInAllowlist
    case HighSlippage => x.slippageBps > HIGH_SLIPPAGE_BPS
    case LargeValue =>
      x.valueWei.Some? && x.maxValueWei.Some? && x.maxValueWei.value > 0 &&
      x.valueWei.value > x.maxValueWei.value / 2
    case UnboundedApproval =>
      x.approvalAmount.Some? &&
      (x.approvalAmount.value == MAX_UINT256 ||
       (x.maxApprovalAmount.Some? && x.maxApprovalAmount.value > 0 &&
        x.approvalAmount.value > x.maxApprovalAmount.value * 10))
    case SimulationReverted => x.simulationReverted
    case AbnormalGas => x.gasEstimate > ABNORMAL_GAS_THRESHOLD
  }

  function Total(ps: seq<Penalty>): nat {
    if ps == [] then 0 else Total(ps[..|ps| - 1]) + Points(ps[|ps| - 1])
  }

  function Charge(p: Penalty, x: RiskContext): nat {
    if Applies(p, x) then Points(p) else 0
  }

  /** The sum of all penalties that apply. */
  function PenaltySum(x: RiskContext): nat {
    Charge(ContractNotInAllowlist, x) + Charge(TokenNotInAllowlist, x) + Charge(HighSlippage, x) +
    Charge(LargeValue, x) + Charge(UnboundedApproval, x) + Charge(SimulationReverted, x) +
    Charge(AbnormalGas, x)
  }

  function Add(ps: seq<Penalty>, p: Penalty, x: RiskContext): seq<Penalty> {
    if Applies(p, x) then ps + [p] else ps
  }

  function AllowlistPenalties(x: RiskContext): seq<Penalty> {
    Add(Add([], ContractNotInAllowlist, x), TokenNotInAllowlist, x)
  }

  function AmountPenalties(ps: seq<Penalty>, x: RiskContext): seq<Penalty> {
    Add(Add(Add(ps, HighSlippage, x), LargeValue, x), UnboundedApproval, x)
  }

  function DuePenalties(x: RiskContext): seq<Penalty> {
    Add(Add(AmountPenalties(AllowlistPenalties(x), x), SimulationReverted, x), AbnormalGas, x)
  }

  lemma AddTotal(ps: seq<Penalty>, p: Penalty, x: RiskContext)
    ensures Total(Add(ps, p, x)) == Total(ps) + Charge(p, x)
  {
    assert (ps + [p])[..|ps|] == ps;
  }

  lemma AddCount(ps: seq<Penalty>, p: Penalty, x: RiskContext, q: Penalty)
    ensures multiset(Add(ps, p, x))[q] == multiset(ps)[q] + if q == p && Applies(p, x) then 1 else 0
  {
  }

  /** The listed penalties add up to the plain sum of those that apply. */
  lemma DuePenaltiesAddUp(x: RiskContext)
    ensures Total(DuePenalties(x)) == PenaltySum(x)
  {
    hide Add, Charge, Applies;
    var p1 := Add([], ContractNotInAllowlist, x);
    AddTotal([], ContractNotInAllowlist, x);
    var p2 := Add(p1, TokenNotInAllowlist, x);
    AddTotal(p1, TokenNotInAllowlist, x);
    var p3 := Add(p2, HighSlippage, x);
    AddTotal(p2, HighSlippage, x);
    var p4 := Add(p3, LargeValue, x);
    AddTotal(p3, LargeValue, x);
    var p5 := Add(p4, UnboundedApproval, x);
    AddTotal(p4, UnboundedApproval, x);
    AddTotal(p5, SimulationReverted, x);
    AddTotal(Add(p5, SimulationReverted, x), AbnormalGas, x);
  }

  /** Each penalty is listed once when it applies and not at all otherwise. */
  lemma DuePenaltiesAreExact(x: RiskContext, q: Penalty)
    ensures multiset(DuePenalties(x))[q] == if Applies(q, x) then 1 else 0
  {
    hide Add, Applies;
    var p1 := Add([], ContractNotInAllowlist, x);
    AddCount([], ContractNotInAllowlist, x, q);
    var p2 := Add(p1, TokenNotInAllowlist, x);
    AddCount(p1, TokenNotInAllowlist, x, q);
    var p3 := Add(p2, HighSlippage, x);
    AddCount(p2, HighSlippage, x, q);
    var p4 := Add(p3, LargeValue, x);
    AddCount(p3, LargeValue, x, q);
    var p5 := Add(p4, UnboundedApproval, x);
    AddCount(p4, UnboundedApproval, x, q);
    AddCount(p5, SimulationReverted, x, q);
    AddCount(Add(p5, SimulationReverted, x), AbnormalGas, x, q);
  }

  method ScoreAllowlists(x: RiskContext) returns (score: nat, reasons: seq<Penalty>)
    ensures reasons == AllowlistPenalties(x) && score == Total(reasons)
  {
    score, reasons := 0, [];
    AddTotal([], ContractNotInAllowlist, x);
    if !x.contractInAllowlist {
      score, reasons := score + 40, reasons + [ContractNotInAllowlist];
    }
    AddTotal(reasons, TokenNotInAllowlist, x);
    if !x.tokenInAllowlist {
      score, reasons := score + 20, reasons + [TokenNotInAllowlist];
    }
  }

  /** Slippage and amounts, on top of what has been found so far. */
  method ScoreAmounts(x: RiskContext, soFar: nat, found: seq<Penalty>) returns (score: nat, reasons: seq<Penalty>)
    requires soFar == Total(found)
    ensures reasons == AmountPenalties(found, x) && score == Total(reasons)
  {
    hide Total;
    score, reasons := soFar, found;
    AddTotal(found, HighSlippage, x);
    if x.slippageBps > HIGH_SLIPPAGE_BPS {
      score, reasons := score + 15, reasons + [HighSlippage];
    }
    AddTotal(reasons, LargeValue, x);
    if x.valueWei.Some? && x.maxValueWei.Some? && x.maxValueWei.value > 0 &&
       x.valueWei.value > x.maxValueWei.value / 2 {
      score, reasons := score + 20, reasons + [LargeValue];
    }
    AddTotal(reasons, UnboundedApproval, x);
    if x.approvalAmount.Some? {
      var isUnbounded :=
        x.approvalAmount.value == MAX_UINT256 ||
        (x.maxApprovalAmount.Some? && x.maxApprovalAmount.value > 0 &&
         x.approvalAmount.value > x.maxApprovalAmount.value * 10);
      if isUnbounded {
        score, reasons := score + 25, reasons + [UnboundedApproval];
      }
    }
  }

  /** The reported score is the sum of the reported penalties, which is the plain sum of those
      that apply, capped. */
  method ComputeRiskScore(x: RiskContext) returns (score: nat, reasons: seq<Penalty>)
    ensures reasons == DuePenalties(x)
    ensures score == if Total(reasons) < 100 then Total(reasons) else 100
    ensures Total(reasons) == PenaltySum(x)
  {
    hide Total, AmountPenalties, AllowlistPenalties;
    score, reasons := ScoreAllowlists(x);
    score, reasons := ScoreAmounts(x, score, reasons);
    AddTotal(reasons, SimulationReverted, x);
    if x.simulationReverted {
      score, reasons := score + 50, reasons + [SimulationReverted];
    }
    AddTotal(reasons, AbnormalGas, x);
    if x.gasEstimate > ABNORMAL_GAS_THRESHOLD {
      score, reasons := score + 10, reasons + [AbnormalGas];
    }
    score := if score < MAX_RISK_SCORE then score else MAX_RISK_SCORE;
    DuePenaltiesAddUp(x);
  }

  function Cap(text: string): Option<nat> {
    if BigIntOf(text) > 0 then Some(BigIntOf(text)) else None
  }

  function BuildRiskContext(i: Intent, c: PolicyConfig, simulationSuccess: bool, gasEstimate: nat): RiskContext {
    var tokens := TokenAddresses(i.action);
    var contract := ContractAddress(i.action);
    RiskContext(
      contract.None? || contract.value == "" || c.contractAllowlist == [] ||
        Listed(c.contractAllowlist, contract.value),
      forall k | 0 <= k < |tokens| :: c.tokenAllowlist == [] || Listed(c.tokenAllowlist, tokens[k]),
      i.maxSlippageBps,
      !simulationSuccess,
      gasEstimate,
      if i.action.Approve? then Some(BigIntOf(i.action.amount)) else None,
      Cap(c.maxApprovalAmount),
      match i.action
        case Transfer(_, _, amount) => Some(BigIntOf(amount))
        case TransferNative(_, amount) => Some(BigIntOf(amount))
        case Approve(_, _, _) => None
        case SwapExactIn(_, _, _, _, amountIn, _) => Some(BigIntOf(amountIn))
        case SwapExactOut(_, _, _, _, _, maxAmountIn) => Some(BigIntOf(maxAmountIn)),
      Cap(c.maxValueWei))
  }

  /** The scorer and the policy engine agree on the allowlists: a penalty is due
      exactly when the policy rule rejects. */
  lemma AllowlistsAgree(i: Intent, c: PolicyConfig, ok: bool, gas: nat)
    ensures Applies(TokenNotInAllowlist, BuildRiskContext(i, c, ok, gas)) <==> Policy.AnyTokenRejected(i, c)
    ensures Applies(ContractNotInAllowlist, BuildRiskContext(i, c, ok, gas)) <==> Policy.ContractRejected(i, c)
  {
    hide Listed;
    var tokens := TokenAddresses(i.action);
    if !Policy.AnyTokenRejected(i, c) {
      forall k | 0 <= k < |tokens| ensures c.tokenAllowlist == [] || Listed(c.tokenAllowlist, tokens[k]) {
        assert !Policy.ListRejects(c.tokenAllowlist, tokens[k]);
      }
    }
  }

  /** The penalties of an intent, read off the intent and the policy. */
  lemma PenaltiesOfIntent(i: Intent, c: PolicyConfig, ok: bool, gas: nat)
    ensures PenaltySum(BuildRiskContext(i, c, ok, gas)) ==
      (if Policy.ContractRejected(i, c) then 40 else 0) +
      (if Policy.AnyTokenRejected(i, c) then 20 else 0) +
      (if i.maxSlippageBps > 300 then 15 else 0) +
      (if !i.action.Approve? && BigIntOf(c.maxValueWei) > 0 && Policy.Value(i) > BigIntOf(c.maxValueWei) / 2
       then 20 else 0) +
      (if i.action.Approve? && (Policy.Value(i) == Pow16(64) - 1 || (BigIntOf(c.maxApprovalAmount) > 0 &&
                                Policy.Value(i) > 10 * BigIntOf(c.maxApprovalAmount)))
       then 25 else 0) +
      (if ok then 0 else 50) +
      (if gas > 400_000 then 10 else 0)
  {
    hide Listed, Pow16, Policy.ContractRejected, Policy.AnyTokenRejected, BigIntOf;
    MaxUintIsTheLargestWord();
    AllowlistsAgree(i, c, ok, gas);
  }

  /** For an intent the policy does not deny, both allowlist penalties are absent, the
      unbounded-approval penalty is due exactly for the largest amount there is, and the
      cap of 100 never binds. */
  lemma ScoreOfUndeniedIntent(i: Intent, c: PolicyConfig, o: Policy.Options, ok: bool, gas: nat)
    requires Policy.Decide(i, c, o) != Policy.Deny
    ensures var x := BuildRiskContext(i, c, ok, gas);
      && !Applies(TokenNotInAllowlist, x)
      && !Applies(ContractNotInAllowlist, x)
      && (Applies(UnboundedApproval, x) <==> i.action.Approve? && BigIntOf(i.action.amount) == Pow16(64) - 1)
      && PenaltySum(x) <= 100
  {
    hide Listed, Pow16;
    MaxUintIsTheLargestWord();
    AllowlistsAgree(i, c, ok, gas);
  }

  /** Intents that are not denied do reach the bound, so no smaller cap would do. */
  lemma CapIsTight(c: PolicyConfig, i: Intent, o: Policy.Options)
    requires Policy.Decide(i, c, o) != Policy.Deny
    requires i.action.Approve? && BigIntOf(i.action.amount) == Pow16(64) - 1
    requires i.maxSlippageBps > 300
    ensures PenaltySum(BuildRiskContext(i, c, false, 400_001)) == 100
  {
    hide Listed, Pow16;
    MaxUintIsTheLargestWord();
    AllowlistsAgree(i, c, false, 400_001);
  }
}
