/** The signing service: policy gate, approval gate, key gate, then the signature. */
module Wallet {
  import opened Types
  import Policy
  import Tokens
  import Audit
  import Keystore
  import Text

  datatype SignRequest = SignRequest(
    intentId: string, wallet: string, txRequestHash: string,
    decision: Option<Policy.Verdict>, token: Option<string>)

  datatype SignError =
    MissingDecision | DeniedByPolicy | MissingToken | TokenRejected(why: Tokens.Rejection) | KeyLocked

  /** Whether the request's token passes and is therefore used up. */
  predicate SpendsToken(t: Tokens.Table, q: SignRequest, now: nat) {
    q.decision == Some(Policy.RequireApproval) && q.token.Some? &&
    Tokens.Validate(t, q.token.value, q.intentId, q.txRequestHash, now) == None
  }

  /** The token is used up even when the key turns out to be locked. */
  function TokensAfter(t: Tokens.Table, q: SignRequest, now: nat): Tokens.Table {
    if SpendsToken(t, q, now) then Tokens.Consume(t, q.token.value) else t
  }

  /** The private key to sign with, or the first gate that refuses. */
  function Gate(t: Tokens.Table, unlocked: map<string, string>, q: SignRequest, now: nat): Result<string, SignError> {
    if q.decision.None? then Err(MissingDecision)
    else if q.decision.value == Policy.Deny then Err(DeniedByPolicy)
    else if q.decision.value == Policy.RequireApproval && q.token.None? then Err(MissingToken)
    else if q.decision.value == Policy.RequireApproval && !SpendsToken(t, q, now) then
      Err(TokenRejected(Tokens.Validate(t, q.token.value, q.intentId, q.txRequestHash, now).value))
    else if Text.Lower(q.wallet) !in unlocked then Err(KeyLocked)
    else Ok(unlocked[Text.Lower(q.wallet)])
  }

  class WalletService {
    const keystore: Keystore.EncryptedKeystore
    const tokenManager: Tokens.ApprovalTokenManager
    const auditTrace: Audit.AuditTraceService

    constructor (keystore: Keystore.EncryptedKeystore, tokenManager: Tokens.ApprovalTokenManager,
                 auditTrace: Audit.AuditTraceService)
      ensures this.keystore == keystore && this.tokenManager == tokenManager && this.auditTrace == auditTrace
    {
      this.keystore, this.tokenManager, this.auditTrace := keystore, tokenManager, auditTrace;
    }

    /** Everything up to the signing call itself, which runs without interruption. */
    method Authorize(q: SignRequest, now: nat) returns (r: Result<string, SignError>)
      modifies tokenManager, auditTrace`events
      ensures r == Gate(old(tokenManager.rows), keystore.unlocked, q, now)
      ensures tokenManager.rows == TokensAfter(old(tokenManager.rows), q, now)
      ensures auditTrace.events == old(auditTrace.events) +
                if r.Err? then [Audit.AuditEvent(now, q.intentId, "signing_denied")] else []
      ensures r == Err(MissingDecision) <==> q.decision.None?
      ensures r == Err(DeniedByPolicy) <==> q.decision == Some(Policy.Deny)
      ensures r == Err(MissingToken) <==> q.decision == Some(Policy.RequireApproval) && q.token.None?
      ensures (r.Err? && r.error.TokenRejected?) <==>
                q.decision == Some(Policy.RequireApproval) && q.token.Some? &&
                !Tokens.Usable(old(tokenManager.rows), q.token.value, q.intentId, q.txRequestHash, now)
      ensures r.Ok? || r == Err(KeyLocked) ==>
                (r.Ok? <==> Text.Lower(q.wallet) in keystore.unlocked) &&
                tokenManager.rows ==
                  if q.decision == Some(Policy.RequireApproval)
                  then old(tokenManager.rows)[q.token.value := old(tokenManager.rows)[q.token.value].(consumed := true)]
                  else old(tokenManager.rows)
      ensures r.Err? && r != Err(KeyLocked) ==> tokenManager.rows == old(tokenManager.rows)
      ensures r.Ok? ==> r.value == keystore.unlocked[Text.Lower(q.wallet)]
      ensures r.Ok? && Keystore.UnlockedDerive(keystore.View(), keystore.crypto) ==>
                Keystore.AddressOf(keystore.crypto, r.value) == Some(Text.Lower(q.wallet))
    {
      if q.decision.None? {
        auditTrace.Log("signing_denied", q.intentId, now);
        return Err(MissingDecision);
      }
      if q.decision.value == Policy.Deny {
        auditTrace.Log("signing_denied", q.intentId, now);
        return Err(DeniedByPolicy);
      }
      if q.decision.value == Policy.RequireApproval {
        if q.token.None? {
          auditTrace.Log("signing_denied", q.intentId, now);
          return Err(MissingToken);
        }
        var check := tokenManager.ValidateToken(q.token.value, q.intentId, q.txRequestHash, now);
        if check.Some? {
          auditTrace.Log("signing_denied", q.intentId, now);
          return Err(TokenRejected(check.value));
        }
        tokenManager.ConsumeToken(q.token.value);
      }
      var key := keystore.GetUnlockedKey(q.wallet);
      if key.None? {
        auditTrace.Log("signing_denied", q.intentId, now);
        return Err(KeyLocked);
      }
      return Ok(key.value);
    }

    /** After the signing call returned. */
    method Finish(q: SignRequest, now: nat)
      modifies auditTrace`events
      ensures auditTrace.events == old(auditTrace.events) + [Audit.AuditEvent(now, q.intentId, "signature_created")]
    {
      auditTrace.Log("signature_created", q.intentId, now);
    }
  }

  /** However often the same token is offered, the gates open for it at most once: after a
      request that passed on it, no request that needs it passes again, whatever the time. */
  lemma GateOpensOncePerToken(t: Tokens.Table, unlocked: map<string, string>, q: SignRequest, now: nat,
                              later: map<string, string>, run: seq<Tokens.Timed>, q': SignRequest, now': nat)
    requires q.decision == Some(Policy.RequireApproval) && Gate(t, unlocked, q, now).Ok?
    requires q'.decision == Some(Policy.RequireApproval) && q'.token == q.token
    requires Tokens.NeverIssues(run, q.token.value)
    ensures Gate(Tokens.After(TokensAfter(t, q, now), run), later, q', now').Err?
  {
    Tokens.SpentStaysInvalid(TokensAfter(t, q, now), run, q.token.value, q'.intentId, q'.txRequestHash, now');
  }
}
