/** evaluatePolicy and the approval service as the methods they are, each proved to do to the
    tables what its step of the protocol does. */
module Approval {
  import opened Types
  import Text
  import Policy
  import Tokens
  import Audit
  import RateLimit
  import Pending
  import Protocol

  /** ghost s is any protocol state with the same rate table and clock. */
  method EvaluatePolicy(i: Intent, c: PolicyConfig, auditTrace: Audit.AuditTraceService, risk: Option<int>, now: nat,
                        ghost config: Protocol.Config, ghost s: Protocol.State) returns (d: Policy.PolicyDecision)
    requires Text.IsAddress(i.wallet)
    requires config.policy == c && s.rate.table == auditTrace.ticks && s.now == now
    modifies auditTrace`ticks
    ensures d.verdict == Protocol.Decision(config, s, i, risk)
    ensures auditTrace.ticks == Protocol.Charge(config, s, i, risk).rate.table
    ensures var recent := |Audit.Places(old(auditTrace.ticks), i.wallet, now, 3_600_000)|;
      d.verdict == Policy.Decide(i, c, Policy.Options(risk, Some(recent)))
    ensures auditTrace.ticks ==
      old(auditTrace.ticks) + if d.verdict == Policy.Deny then [] else [Audit.Tick(i.wallet, now)]
  {
    hide Policy.Decide, Audit.Count;
    var recentTxCount := auditTrace.CountRecentTxByWallet(i.wallet, RateLimit.RATE_LIMIT_WINDOW_MS, now);
    d := Policy.Evaluate(i, c, Policy.Options(risk, Some(recentTxCount)));
    if d.verdict != Policy.Deny {
      var ok := auditTrace.RecordRateLimitTick(i.wallet, now);
    }
  }

  class ApprovalService {
    const tokenManager: Tokens.ApprovalTokenManager
    const auditTrace: Audit.AuditTraceService

    constructor (tokenManager: Tokens.ApprovalTokenManager, auditTrace: Audit.AuditTraceService)
      ensures this.tokenManager == tokenManager && this.auditTrace == auditTrace
    {
      this.tokenManager, this.auditTrace := tokenManager, auditTrace;
    }

    /** requestApproval from the prompt's answer on; id stands for randomUUID.  ghost s is any
        protocol state with the same token table and clock in which the handler h waits. */
    method Resume(confirmed: bool, summary: Pending.Summary, id: string, now: nat,
                  ghost s: Protocol.State, ghost pid: nat, ghost h: Protocol.Handler) returns (token: Option<string>)
      requires id !in tokenManager.rows
      requires s.tokens == tokenManager.rows && s.now == now
      requires h.ApprovePrompting? && h.request in s.settled && s.settled[h.request] == confirmed
      requires summary == Pending.Summary(h.intent.id, h.plan.txRequestHash)
      modifies tokenManager, auditTrace`events
      ensures tokenManager.rows == Protocol.OnPromptSettled(s, pid, h, id).tokens
      ensures token == if confirmed then Some(id) else None
      ensures tokenManager.rows ==
                if !confirmed then old(tokenManager.rows)
                else old(tokenManager.rows)[
                  id := Tokens.TokenRow(summary.intentId, summary.txRequestHash, now / 1000, 300, false)]
      ensures confirmed ==> Tokens.Validate(tokenManager.rows, id, summary.intentId, summary.txRequestHash, now) == None
      ensures auditTrace.events == old(auditTrace.events) +
                [Audit.AuditEvent(now, summary.intentId, if confirmed then "approval_granted" else "approval_rejected")]
    {
      if !confirmed {
        auditTrace.Log("approval_rejected", summary.intentId, now);
        return None;
      }
      tokenManager.IssueToken(id, summary.intentId, summary.txRequestHash, Protocol.APPROVAL_TTL_SECONDS, now);
      auditTrace.Log("approval_granted", summary.intentId, now);
      return Some(id);
    }
  }
}
