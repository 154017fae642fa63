# Verification of the trusted signing runtime

This project models the approval-to-signature protocol of the runtime (`packages/core`,
`packages/signer`, `packages/audit`, `packages/policy`, `packages/preflight`), the transaction
builders it signs, the skill registry and the Telegram client, and proves what holds over every run.
`dafny verify dfyconfig.toml` checks everything.

## How it is laid out

| File | What it models |
|---|---|
| `types.dfy`, `text.dfy` | intents, plans, configuration; decimal and hexadecimal texts, addresses, letter case |
| `policy.dfy`, `risk.dfy` | the policy engine, the risk scorer and the context it is given |
| `tokens.dfy`, `pending.dfy`, `audit.dfy` | the three stores: approval tokens, pending prompts, audit events with the rate-limit table |
| `keystore.dfy`, `wallet.dfy`, `approval.dfy` | the keystore, the signing gates, the approval service and `evaluatePolicy` |
| `canonical.dfy`, `builders.dfy` | canonical JSON, ABI encoding and decoding, the five transaction builders, the request hash |
| `protocol.dfy` | the whole protocol as a transition system |
| `frames.dfy`, `moves.dfy` | what one step touches, and what it leaves to others |
| `safety.dfy`, `history.dfy`, `accounting.dfy` | the invariant and the approval theorems; the truth of the recorded history; the rate limit and tick accounting |
| `progress.dfy`, `unasked.dfy` | which intents are let through after a yes, and which without one |
| `decisions.dfy`, `keys.dfy`, `endings.dfy` | which steps ask the policy and what each verdict leads to; the key behind each signature; how prompts and requests end |
| `telegram.dfy`, `polling.dfy` | the bot as a concurrent client of the pending store; its polling loop |
| `scanner.dfy`, `registry.dfy` | the static scan and the skill registry |

Stores, services and loops are classes and methods that change their fields in place, each proved
against a function on tables; the lemmas are about those functions. The request handlers run
concurrently, so they are steps on a state value: `Protocol.Act` gives, for each label, exactly the
code that runs between two awaits of `tx.ts` (`ReceiveBuild`, `ReceiveApprove`, `ReceiveSign`,
`Built`, `Simulated`, `PromptSettled`, `Estimated`, `SigningReturned`, `Sent`), or one action of the
environment (clock, the cleaners of `app.ts:62-64` and of the pending store, a decision on the web
page or in the terminal, shutdown, keys locked and unlocked, a restart that keeps the databases).
Any number of handlers are in flight at once, and any of them may hold the same token. A run is any
sequence of labels that are possible one after another (`Protocol.Exec`). The state also records
prompts, answers, issues, spendings and signatures; `History` proves that these records are never
rewritten and that each one has the position, and if it has a time the time, of the step that caused it.

`sign-and-send` decides without a risk score (`tx.ts:342`), so claims about approval speak of the
decision taken at signing time. What that lets through is stated in `Unasked`.

## Where the code and its documentation differ

The model follows the code.

- `docs/configuration.md:94` says a risk score above the maximum requires the user's approval. An
  intent can be prompted for and refused for its score, and then signed without a token, exactly
  when its score is above `maxRiskScore`, its value is not above `requireApprovalAbove` and the signer
  takes the request (`Unasked.RefusedIntentIsSignedIff`, `Unasked.RefusedAndSigned`,
  `Policy.IgnoringRiskMattersIff`).
- `docs/configuration.md:88-89` says a cap of `"0"` denies everything. In the code it is no cap
  (`Policy.CapsHoldIff`, `Builders.NoCapsAllowValue`, `Builders.ZeroCapsAllowValue`).
- `docs/CHANGELOG.md:42` and the runtime's own `README.md:86` promise a silent fallback to Uniswap when 1inch fails.
  The 1inch server is asked only when the intent names the 1inch router, and the Uniswap builder
  then refuses that router (`Builders.FallbackNeverFollowsAFailedCall`, `Builders.FallbackWorksIff`, `Builders.ServerSwapIsLost`).
- `docs/configuration.md:96` limits transactions per wallet. Rows are keyed by the exact text, so
  an account is limited exactly when one spelling of its address is used
  (`RateLimit.AccountLimitedIff`, `Accounting.AccountLimitHolds`, `Accounting.TwoSpellingsPassTheLimit`).
- `packages/adapter-telegram/README.md:57` says only the user who started a transaction can approve
  it. A flow whose polls give up awaits the approval request itself, whoever answers it: a send was
  pressed for by that user exactly unless the polls of its flow gave up
  (`Telegram.SendWasPressedForIff`, `Telegram.SentWithoutAPress`).
- `docs/operations/performance-tuning.md:171` says a transaction waits until the user approves or the
  lifetime is over. A decision that comes after the lifetime and before the cleanup removes the request
  without settling its promise, so that call waits for ever (`Pending.EveryRequestIsAccountedFor`,
  `Pending.LateDecisionIsNeverDelivered`).
- `docs/development/skill-registry.md:224-225` says a revoked name can be registered again. The row
  still holds the primary key, so the insertion throws (`Registry.RegistersIffNeverRegistered`,
  `Registry.RevokingDoesNotFreeTheName`).

## Model

| member | source | states |
|---|---|---|
| Safety.StepKeepsInv | packages/core/src/api/routes/tx.ts:148-451 | every possible step of any handler, timer, decision or restart keeps the protocol invariant: every token goes back to a prompt answered yes for its intent and hash, no prompt yields two tokens, a spent token is never usable again, a handler about to sign has paid with its own token |
| Safety.RunKeepsInv | packages/core/src/api/routes/tx.ts:148-451 | the invariant holds after every run |
| Safety.SignaturesAreApproved | packages/core/src/api/routes/tx.ts:286-313 | in every run the signatures made under a require_approval decision map one-to-one to distinct prompts answered yes (in web mode within the pending lifetime) that showed the same intent id and hash and, with an injective hash, the very request that is signed; the token was spent within its lifetime |
| Safety.SignatureIsBacked | packages/signer/src/wallet-service.ts:39-66 | one such signature: the signing handler itself spent the token it carries, and the token's prompt backs the signature |
| Safety.TokensAreSingleUse | packages/signer/src/wallet-service.ts:39-66 | in every run no two signatures were made with the same token, however many handlers carried it |
| Safety.SignedTransactionsObeyPolicy | packages/core/src/api/routes/tx.ts:336-404 | in every run a signed transaction was not denied, is for its intent's chain and, unless 1inch supplied the calldata, decodes to exactly what the intent asks for and to nothing the configured chains, lists and caps forbid |
| Safety.AuthorizeKeeps | packages/signer/src/wallet-service.ts:19-77 | validate, consume and key lookup in one step keep the invariant, so the first check of `sign-and-send` may be stale without harm |
| Safety.SignPlanKeeps | packages/core/src/api/routes/tx.ts:342-402 | the stretch of `sign-and-send` from the policy check to the next await keeps the invariant |
| Safety.RiskKnownKeeps | packages/core/src/api/routes/tx.ts:246-294 | the stretch of `approve-request` from the policy check to the prompt keeps the invariant |
| Safety.TokenIssueKeeps | packages/core/src/approval/approval-service.ts:34-54 | resuming from a prompt issues at most one token, and only after a yes |
| Safety.WebDecideKeeps | packages/core/src/api/routes/approval-ui.ts:47-71 | a web decision, in time, late, repeated or on an unknown request, keeps the invariant |
| Safety.RestartKeeps | packages/core/src/api/app.ts:165-171 | losing handlers, prompts and keys while the databases stay keeps the invariant |
| Keys.SignaturesUseTheWalletsKey | packages/signer/src/wallet-service.ts:68-83 | in every run each signature is made with the private key that some earlier step unlocked for its intent's wallet, in any letter case, and that no lock, other unlocking or restart had replaced when the handler went through the gates |
| Keys.UnlockedIff | packages/signer/src/keystore.ts:137-200 | after every run a key is in memory for an address exactly when a step of the run unlocked it and none since has locked, replaced or lost it |
| History.RunCaused | packages/core/src/api/routes/tx.ts:148-451 | in every run each recorded prompt, answer, issue, spending and signature carries the position of the step that caused it, which is of the right kind for it, and all but signatures also the time of that step |
| History.HistoryOnlyGrows | packages/core/src/api/routes/tx.ts:148-451 | whatever was recorded after the first n steps of a run stays as it was; in particular no token is spent twice and no prompt answered twice |
| History.EverySignatureHasItsYes | packages/core/src/api/routes/tx.ts:286-313 | in every run the signatures made under a require_approval decision map one-to-one to earlier steps of that run, each the user's yes to a prompt for the same intent and request |
| Accounting.RateLimitHolds | packages/core/src/api/routes/tx.ts:108-131 | in every run, for every wallet text and every half-open hour, at most maxTxPerHour decisions other than deny are recorded |
| Decisions.DecisionsAreCharged | packages/core/src/api/routes/tx.ts:108-131 | in every run each step that asks the policy and is not denied records one tick, of its wallet and time, and no other step records any; the answer is the policy's on the exact number of the wallet's ticks in the last 3 600 000 ms, whatever cleanups there were |
| Decisions.PromptedIff | packages/core/src/api/routes/tx.ts:223-294 | in every run a step prompts the user exactly when it is one of approve-request, knows the score (0 without a client) and is told to ask for approval; the prompt shows that request's plan |
| Decisions.SigningGoesOnIff | packages/core/src/api/routes/tx.ts:336-404 | sign-and-send goes on past the policy check exactly when it is allowed, or approval is asked for and the token offered is unused, in time and for this intent and hash; without a client for the chain the key must be there as well, and the token is then used up either way |
| Accounting.TicksCoverTokensAndSignatures | packages/core/src/api/routes/tx.ts:113-131 | at every point of every run, for each wallet text, ticks recorded are at least tokens issued plus signatures made |
| Accounting.RunConserves | packages/core/src/api/routes/tx.ts:113-131 | the stronger invariant: handlers in flight that may still issue or sign are covered as well |
| Progress.ApprovedIntentIsSigned | packages/core/src/api/routes/tx.ts:223-405 | from every reachable state, with a client for the chain or without, with answers from the web page or the terminal, and with any labels of other handlers, timers and users in between, an intent is signed, on its plan and with its token. What is asked of the world each time the intent's own handler moves: both builds give the plan, the names drawn are new, the policy asks for approval (with the score found, later without one), the yes comes within the pending lifetime, at the gates the token is at most 299 s old and the key unlocked, and the signer takes the request with the fees found (`Protocol.Signable`: recipient in lower case or checksum spelling, hexadecimal data, no negative value, tip not above the fee cap). What is asked of the others: they do not move its handler, restart the core while a handler carries it, answer or close its prompt, or spend its token |
| Progress.UndisturbedIntentIsSigned | packages/core/src/api/routes/tx.ts:223-405 | when nobody interferes, all of this can be seen at the start: new names, an unlocked key, a request the signer takes (`Protocol.Signable`), a policy that asks for approval at the score found and, with one more recent transaction, without a score; the user may take the whole pending lifetime and the token be offered up to 299 s later |
| Unasked.RefusedIntentIsSignedIff | packages/core/src/api/routes/tx.ts:342-404 | from every reachable state: an intent that is prompted for is refused, and is then signed without a token exactly when its score is above the maximum, its value is not above the threshold and the signer takes the request (`Protocol.Signable`); the key is unlocked and one more transaction is within the rate limit |
| Unasked.RefusedAndSigned | packages/core/src/api/routes/tx.ts:342-404 | one such run from the start: a key is unlocked, a transfer of five wei is prompted for at a score of 60 where 50 is allowed, refused, and then signed |
| Unasked.UnaskedSignIff | packages/core/src/api/routes/tx.ts:336-404 | from every state, sign-and-send without a token makes a signature exactly when the decision without a score is allow, the key is unlocked and the signer takes the request with the fees found (`Protocol.Signable`) |
| Unasked.BuiltIsSignableIff | packages/signer/src/wallet-service.ts:81-83 | a request the program built itself, not the 1inch server, is taken by the signer exactly when the token, router or recipient it goes to is spelled in lower case or as its checksum and the fees fit |
| Unasked.ServerChoosesWhatIsSigned | packages/core/src/tx/builders/swap-oneinch-builder.ts:42-60 | for an allowed swap on the 1inch router with the key unlocked, whatever recipient, data and value the server replies, exactly that transaction is signed if and only if the signer takes it (`Protocol.Signable`) |
| Endings.OverduePromptEnds | packages/core/src/approval/pending-approval-store.ts:82-92 | from every reachable state, the request that waits for a prompt still held after its lifetime ends with the next cleanup, without a token |
| Endings.CleanupRefusesIff | packages/core/src/approval/pending-approval-store.ts:82-92 | in every run a cleanup settles a held prompt with no exactly when its lifetime is over, and leaves every other as it is |
| Endings.ClosingRefuses | packages/core/src/approval/pending-approval-store.ts:94-103 | closing settles every held prompt with no |
| Endings.CleanersLeave | packages/core/src/api/app.ts:62-64 | the cleaners leave exactly the tokens within their lifetime and the ticks within their window, which is at least an hour |
| Endings.RequestsTakeFourSteps | packages/core/src/api/routes/tx.ts:148-451 | in every run every request takes at most four steps of its own, each of which brings it closer to its end |
| Endings.SignedIsBroadcastIff | packages/core/src/api/routes/tx.ts:400-446 | when the signing call fails the request ends without a signature; when it succeeds there is one more, and the request goes on to broadcast it exactly where there is a client for the chain |
| Endings.RestartEndsRequests | packages/core/src/api/app.ts:165-171 | in every run a restart ends every request in flight, none of which takes another step, forgets prompts and keys, and leaves the databases |
| Approval.EvaluatePolicy | packages/core/src/api/routes/tx.ts:113-131 | counts the wallet's ticks younger than an hour, decides on them and records one tick unless it denies; exactly what the protocol's step does on the same table and clock |
| Approval.ApprovalService.Resume | packages/core/src/approval/approval-service.ts:34-54 | after a yes one token is issued, with a lifetime of 300 s and valid at once for the summary's intent and hash, and logged; after a no nothing is issued and the refusal is logged; the token table is that of the protocol's step |
| Tokens.ApprovalTokenManager.IssueToken | packages/core/src/approval/approval-token-manager.ts:69-80 | one row is added, no other changes, and with a positive lifetime the token is valid at once |
| Tokens.ApprovalTokenManager.Get | packages/core/src/approval/approval-token-manager.ts:82-93 | returns the row, consumed or expired as it may be, and nothing for an unknown id |
| Tokens.ApprovalTokenManager.ValidateToken | packages/core/src/approval/approval-token-manager.ts:95-106 | the first failing check in the code's order, or none |
| Tokens.ApprovalTokenManager.ConsumeToken | packages/core/src/approval/approval-token-manager.ts:108-110 | the row is marked, no other row or field changes, and afterwards no check of this token passes, for any intent, hash or time |
| Tokens.ApprovalTokenManager.ValidateAndConsume | packages/core/src/approval/approval-token-manager.ts:112-127 | consumes exactly when the check passes, after which the same check reports consumed |
| Tokens.ApprovalTokenManager.CleanupTokens | packages/core/src/approval/approval-token-manager.ts:129-132 | deletes exactly the expired rows |
| Tokens.CleanupIsInvisible | packages/core/src/approval/approval-token-manager.ts:66-132 | with cleanups inserted anywhere, every check in a run gets the answer it would get without any cleanup |
| Tokens.SpentStaysInvalid | packages/core/src/approval/approval-token-manager.ts:95-132 | once consumed or deleted a token never becomes valid again, whatever follows |
| Tokens.MissingStaysMissing | packages/core/src/approval/approval-token-manager.ts:69-132 | a token that is in the table was issued |
| Tokens.TokenLifetime | packages/core/src/approval/approval-token-manager.ts:69-106 | despite both clocks being floored to seconds: an untouched token is valid exactly while elapsed ms plus the ms part of its issue time stay below 1000 times its lifetime; hence valid up to 1000(T-1) ms and invalid from 1000T ms |
| Wallet.WalletService.Authorize | packages/signer/src/wallet-service.ts:19-77 | each refusal exactly in its case and the code's order, or the unlocked private key of the wallet, which derives to the wallet's address if the keystore's keys do; the token is used up exactly when it was needed and usable, even if the key then turns out locked; every refusal is logged |
| Wallet.WalletService.Finish | packages/signer/src/wallet-service.ts:83-96 | one signature_created event after the signing call |
| Wallet.GateOpensOncePerToken | packages/signer/src/wallet-service.ts:48-66 | after a request that passed on a token, no request that needs that token ever passes again |
| Pending.PendingApprovalStore.AddRequest | packages/core/src/approval/pending-approval-store.ts:30-40 | holds the new request, undecided, from now on |
| Pending.PendingApprovalStore.List | packages/core/src/approval/pending-approval-store.ts:42-55 | exactly the requests whose lifetime is not over |
| Pending.PendingApprovalStore.Get | packages/core/src/approval/pending-approval-store.ts:57-66 | a request only while its lifetime is not over |
| Pending.PendingApprovalStore.DecideRequest | packages/core/src/approval/pending-approval-store.ts:68-80 | succeeds and delivers exactly for a held request no older than the lifetime; a late decision drops the request and delivers nothing |
| Pending.PendingApprovalStore.CleanupRequests | packages/core/src/approval/pending-approval-store.ts:82-92 | removes exactly the undecided requests older than the lifetime, refuses each of them once, and leaves and delivers nothing else |
| Pending.PendingApprovalStore.Close | packages/core/src/approval/pending-approval-store.ts:94-103 | refuses every held request once and holds none |
| Pending.EveryRequestIsAccountedFor | packages/core/src/approval/pending-approval-store.ts:30-103 | over any sequence of operations: added = held + approved + refused + timed out + closed + dropped late; a promise is settled exactly once if its request was approved, refused, timed out or closed, and not at all if it is held or was dropped late; yes is delivered exactly for a yes in time |
| Pending.OverdueIsRefused | packages/core/src/approval/pending-approval-store.ts:82-92 | after any sequence of operations a request still held when a cleanup comes after its lifetime is refused then, exactly once |
| Pending.LateDecisionIsNeverDelivered | packages/core/src/approval/pending-approval-store.ts:68-80 | a request decided after its lifetime and before the cleanup never has its promise settled, whatever follows |
| Pending.DecideSucceedsAtMostOnce | packages/core/src/approval/pending-approval-store.ts:68-80 | over any run a decision succeeds at most once per request and never on a settled one |
| Pending.RunKeepsBalance | packages/core/src/approval/pending-approval-store.ts:30-103 | the balance behind it holds from any balanced state |
| Audit.AuditTraceService.Log | packages/audit/src/audit-trace-service.ts:81-85 | appends one event and changes no other |
| Audit.AuditTraceService.GetTrail | packages/audit/src/audit-trace-service.ts:87-96 | every event of the intent, as often as it was logged, no other event, oldest first in whatever order they were logged |
| Audit.AuditTraceService.RecordRateLimitTick | packages/audit/src/audit-trace-service.ts:110-115 | appends one tick, and refuses a text that is no address |
| Audit.AuditTraceService.CountRecentTxByWallet | packages/audit/src/audit-trace-service.ts:117-121 | the number of places in the table with a tick of the wallet younger than the window |
| Audit.AuditTraceService.CleanupRateLimitEvents | packages/audit/src/audit-trace-service.ts:123-127 | keeps exactly the ticks younger than the window, each as often as it was there, and reports how many went |
| Audit.CleanupIsInvisible | packages/audit/src/audit-trace-service.ts:117-127 | a cleanup with a window no shorter than the counting window changes no later count, whatever is recorded in between |
| RateLimit.RecordKeepsInv | packages/core/src/api/routes/tx.ts:113-131 | a tick recorded while fewer than the maximum are recent keeps the cleaned table faithful and the record throttled |
| RateLimit.SweepKeepsInv | packages/audit/src/audit-trace-service.ts:123-127 | so does a cleanup |
| RateLimit.WindowBound | packages/audit/src/audit-trace-service.ts:117-121 | a throttled record holds at most the maximum in every half-open window |
| RateLimit.AccountLimitedIff | packages/audit/src/audit-trace-service.ts:110-121 | a limiter that counts each text apart keeps an account to the maximum in every window exactly when the account has one spelling, or the maximum is 0 |
| Accounting.AccountLimitHolds | packages/core/src/api/routes/tx.ts:108-131 | in every run an account of which one spelling was used keeps to the maximum in every window |
| Accounting.TwoSpellingsPassTheLimit | packages/core/src/api/routes/tx.ts:148-187 | for every positive maximum there is a run of builds for one account, spelled in two ways, that records one transaction more than the maximum in one millisecond |
| Policy.Evaluate | packages/policy/src/policy-engine.ts:9-140 | the engine's flags and pushed reasons give the declared verdict, which is the most severe among its own reasons |
| Policy.EvaluateTargets | packages/policy/src/policy-engine.ts:18-51 | the loop over tokens and the two rules around it deny exactly when chain, some token or the contract is rejected |
| Policy.DecideIsMaximum | packages/policy/src/policy-engine.ts:9-140 | the verdict is the maximum under deny > require_approval > allow |
| Policy.ReasonsAreTheDueOnes | packages/policy/src/policy-engine.ts:9-140 | exactly one reason per fired rule and per failing token occurrence, and no others |
| Policy.ReasonsAreInOrder | packages/policy/src/policy-engine.ts:9-140 | the reasons come in the order of the rules |
| Builders.VerdictIsExact | packages/policy/src/policy-engine.ts:9-140 | for well-formed intents and lists the verdict is deny exactly when the chains, lists or caps forbid what the intent does on chain or the rate is used up, and otherwise require_approval exactly when the amount or the score is above its threshold |
| Policy.DecideIsMonotone | packages/policy/src/policy-engine.ts:9-140 | raising amount, risk score or recent count, or tightening any part of the configuration (0 caps and empty lists ordered as everything), never softens the verdict |
| Policy.LetterCaseIsIgnored | packages/policy/src/policy-engine.ts:26-100 | the verdict does not depend on the letter case of any address, in the intent or in the lists |
| Policy.IgnoringRiskMattersIff | packages/core/src/api/routes/tx.ts:342-342 | deciding without the score differs from deciding with it exactly when only the risk rule asked for approval |
| Policy.CapsHoldIff | packages/policy/src/policy-engine.ts:53-84 | the documented caps are enforced exactly when the cap is positive or there is no value |
| Builders.NoCapsAllowValue | packages/policy/src/policy-engine.ts:53-84 | with both caps 0 every well-formed intent of up to nine wei on an allowed chain, transfers and approvals alike, is allowed, and asked for only when its score is above 50 |
| Builders.ZeroCapsAllowValue | packages/policy/src/policy-engine.ts:53-84 | one such intent, five wei to an address |
| Risk.ComputeRiskScore | packages/preflight/src/risk-scorer.ts:23-80 | the reported score is the sum of the reported penalties, which is the plain sum of those that apply, capped at 100 |
| Risk.PenaltiesOfIntent | packages/preflight/src/preflight-service.ts:161-212 | the penalties of an intent in points, read off the intent and the policy: lists, slippage above 300 bps, more than half the cap, an approval unbounded or above ten times its cap, a reverted simulation, more than 400 000 gas |
| Risk.DuePenaltiesAreExact | packages/preflight/src/risk-scorer.ts:23-80 | each penalty is reported once when it applies and never otherwise |
| Risk.AllowlistsAgree | packages/preflight/src/preflight-service.ts:161-186 | the preflight context and the policy engine, written apart, agree on both allowlists |
| Risk.ScoreOfUndeniedIntent | packages/preflight/src/preflight-service.ts:161-212 | for an intent the policy does not deny, both allowlist penalties are absent, the unbounded-approval penalty is due exactly for 2^256-1, and the cap of 100 never binds |
| Risk.CapIsTight | packages/preflight/src/risk-scorer.ts:23-80 | intents that the policy does not deny do reach 100 |
| Risk.MaxUintIsTheLargestWord | packages/preflight/src/risk-scorer.ts:54-64 | the constant the scorer compares with is the largest number of 64 hexadecimal digits |
| CanonicalJson.CanonicalFormIsExact | packages/core/src/tx/builders/build-utils.ts:13-26 | canonical texts (sections 3.2.2 and 3.2.3 of RFC 8785) are equal exactly for equal member sets, whatever the order they were written in |
| CanonicalJson.SortIsIncreasing | packages/core/src/tx/builders/build-utils.ts:21-21 | members come out in increasing order of their keys |
| CanonicalJson.BeforeIsLexicographic | packages/core/src/tx/builders/build-utils.ts:21-21 | keys are ordered by code units: a proper prefix, or the smaller unit at the first difference |
| CanonicalJson.UnescapeOfEscape | packages/core/src/tx/builders/build-utils.ts:21-21 | an escape reads back as its character (section 7 of RFC 8259) and is no longer than it has to be |
| CanonicalJson.EscapeIsPrefixFree | packages/core/src/tx/builders/build-utils.ts:21-21 | string escapes can be told apart, so no two strings have the same quoted form |
| Builders.HashBindsRequest | packages/core/src/tx/builders/build-utils.ts:13-26 | with an injective keccak two requests have the same hash exactly when to, data, value and chain are all equal |
| Builders.RequestText | packages/core/src/tx/builders/build-utils.ts:13-26 | the very text that is hashed: seven members in the order of their keys, amounts as decimal texts, type eip1559, both fees 0, no spaces |
| Builders.BuildSucceedsIff | packages/core/src/tx/builders/index.ts:13-60 | exactly which well-formed intents build: addresses that become arguments are in lower case or in the checksum spelling of ERC-55, amounts fit the word, and a swap names the router of its chain; or the 1inch server replied |
| Builders.EncodableIff | packages/core/src/tx/builders/transfer-builder.ts:18-46 | an address encodes exactly when it has no upper-case letter, or just those letters in upper case where the hash of its digits has a digit of 8 or more |
| Builders.BuiltCalldata | packages/core/src/tx/builders/index.ts:13-32 | without a decoder: target, value, function selector (0xa9059cbb, 0x095ea7b3, 0x04e45aaf, 0x5023b4df) and every argument word of each built request, with 3000 as the fee of a swap |
| Builders.RouterTable | packages/core/src/tx/builders/swap-builder.ts:11-16 | the routers of the four chains, and none for any other chain |
| Builders.BuildPreservesMeaning | packages/core/src/tx/builders/index.ts:13-32 | decoding the built transaction gives back the intent's action for transfer, native transfer, approve and both Uniswap swaps; the decoded spend is the amount the policy looked at; id, chain and hash are the plan's own |
| Builders.SwapDecodes | packages/core/src/tx/builders/swap-builder.ts:68-141 | all seven words of both swap calls decode to the swap that was asked for |
| Builders.NativeDecodes | packages/core/src/tx/builders/transfer-native-builder.ts:4-26 | a native transfer carries the amount as value, to the recipient, with no data |
| Builders.Erc20Decodes | packages/core/src/tx/builders/transfer-builder.ts:18-46 | both words of an ERC-20 call decode to the named party and amount |
| Builders.PlanFields | packages/core/src/tx/builders/swap-oneinch-builder.ts:14-68 | whoever supplied the calldata, the plan carries the intent's id and chain and the hash of its own request |
| Builders.FallbackNeverFollowsAFailedCall | packages/core/src/tx/builders/index.ts:34-60 | after a failed call to 1inch the build fails |
| Builders.FallbackWorksIff | packages/core/src/tx/builders/index.ts:34-60 | with 1inch failing, a 1inch swap builds exactly when it names the Uniswap router and its addresses and amounts encode |
| Builders.MeaningIsKeptIff | packages/core/src/tx/builders/swap-oneinch-builder.ts:42-60 | decoding gives back the intent's action whatever the server does, exactly unless the intent is a 1inch swap on the 1inch router |
| Builders.ServerChoosesTheTransaction | packages/core/src/tx/builders/swap-oneinch-builder.ts:52-60 | for such a swap every recipient, data and value is what some reply builds |
| Builders.ServerSwapIsLost | packages/core/src/tx/builders/index.ts:34-60 | one well-formed swap on the 1inch router: an empty reply changes its meaning, and a failed call leaves it unbuilt |
| Builders.BuiltTransactionObeysPolicy | packages/policy/src/policy-engine.ts:9-140 | what is built for an intent that is not denied does, decoded, nothing the chains, lists and caps forbid |
| Abi.DecodeOfCall | packages/core/src/tx/builders/approve-builder.ts:20-51 | a call of a selector and 64-digit words decodes word by word |
| Keystore.EncryptedKeystore.ImportKey | packages/signer/src/keystore.ts:83-135 | the whole new state of files (named after the first eight digits and the profile), metadata and unlocked keys, and each error exactly in its case |
| Keystore.EncryptedKeystore.UnlockKey | packages/signer/src/keystore.ts:137-187 | the whole new state, and for the first entry of the address exactly which error or key comes out |
| Keystore.EncryptedKeystore.LockKey | packages/signer/src/keystore.ts:189-191 | the key of that address is gone from memory and no other, and nothing else changes |
| Keystore.EncryptedKeystore.GetUnlockedKey | packages/signer/src/keystore.ts:193-200 | the unlocked key of the address in any letter case |
| Keystore.UnlockedKeysAlwaysDerive | packages/signer/src/keystore.ts:137-187 | over every run, whatever the cryptography does, an unlocked key derives to the address it is stored under |
| Keystore.UnlockedSinceItsUnlocking | packages/signer/src/keystore.ts:137-191 | over every run a key in memory was unlocked in it, and not locked or lost by a restart since |
| Keystore.ImportedKeyUnlocksIff | packages/signer/src/keystore.ts:83-187 | after any operations and restarts an imported key unlocks with its passphrase exactly when no other import wrote the same file name, and then it is the identical key |
| Keystore.FileNamesCollideIff | packages/signer/src/keystore.ts:111-111 | two keys share a file exactly when profile and first eight digits of the address agree |
| Telegram.AtMostOneSend | packages/adapter-telegram/src/bot.ts:47-126 | in every run of the bot, with any number of presses, timers, lost replies, other deciders and restarts, sign-and-send is called at most once per initiated intent |
| Telegram.SendWasPressedForIff | packages/adapter-telegram/src/bot.ts:63-110 | in every run a send goes back, exactly unless the polls of its flow gave up, to eight steps of the run in this order: the flow's start by its user, the poll that found a request for its intent, the card, a press of Approve on that card by the same user, the core's decision within the pending lifetime, its reply, the token and the sending; otherwise to the start, the giving up and the token |
| Telegram.SentWithoutAPress | packages/adapter-telegram/src/approval/approval-flow.ts:72-95 | one run in which they did: somebody else approves, the bot sends, and nobody pressed a button |
| Telegram.PressedFlowIsSent | packages/adapter-telegram/src/bot.ts:47-126 | from every reachable state a flow whose card is shown is sent after one press of Approve by its user, no later than the pending lifetime after the request came in |
| Telegram.CardComes | packages/adapter-telegram/src/approval/approval-flow.ts:59-137 | from every reachable state the four steps of a new flow bring its card, which names the intent and the user and lasts the approval timeout from then on |
| Telegram.StoppedFlowsSendNothing | packages/adapter-telegram/src/bot.ts:20-126 | in every run a restart of the bot, or a failure of the flow, stops it: nothing more is sent for its intent, whatever happens afterwards |
| Telegram.CardStays | packages/adapter-telegram/src/approval/approval-flow.ts:118-137 | a card goes only when its time is over, with a callback on it that ends, or in a restart |
| Telegram.TimeAndCore | packages/adapter-telegram/src/approval/approval-flow.ts:129-137 | a card expires exactly once its time is over and takes no other with it; the core's cleanup and closing drop exactly the requests they should |
| Telegram.EndedCardIsGone | packages/adapter-telegram/src/bot.ts:63-126 | a callback that is over takes its card with it |
| Telegram.StepKeepsInv | packages/adapter-telegram/src/approval/approval-flow.ts:47-147 | every step of bot and core keeps the invariant: only one press per request is granted, and each flow owns at most one request |
| Polling.PollForPendingApproval | packages/adapter-telegram/src/approval/approval-flow.ts:24-45 | the loop ends; poll n happens at the start plus the sleeps before it plus the time lost; it returns the first listing's match, and gives up only when the deadline has passed |
| Polling.FirstMatch | packages/adapter-telegram/src/approval/approval-flow.ts:34-35 | the first item of the listing for this intent, and none exactly when the listing has none |
| Polling.PollsAreBounded | packages/adapter-telegram/src/approval/approval-flow.ts:30-44 | once n sleeps ask for the whole timeout there is no further poll, however the core behaves |
| Polling.PollingEnds | packages/adapter-telegram/src/approval/approval-flow.ts:30-44 | for every interval there are at most as many polls as the timeout has milliseconds |
| Polling.SixPolls | packages/adapter-telegram/src/approval/approval-flow.ts:47-78 | with 500 ms and 10 s at most six polls, and exactly six when nothing is found and no time is lost |
| Polling.IntervalsGrowToFiveSeconds | packages/adapter-telegram/src/approval/approval-flow.ts:41-42 | the interval grows by half each time until it stays at five seconds |
| Polling.TimerRange | packages/adapter-telegram/src/approval/approval-flow.ts:41-41 | a timer keeps whole milliseconds up to 2^31 - 1 |
| Scanner.ScanFiles | packages/registry/src/static-scanner.ts:78-120 | the loops, with their break and continue, give the declared findings in file, line and rule order; passed holds exactly when none is an error |
| Scanner.ScanLine | packages/registry/src/static-scanner.ts:100-114 | leaving the pattern loop at the first match reports each rule once |
| Scanner.FindingsAreExact | packages/registry/src/static-scanner.ts:78-120 | a finding is in the report exactly when some pattern of its rule matches its line, or its file is unreadable |
| Scanner.OncePerLineAndRule | packages/registry/src/static-scanner.ts:100-114 | each rule is reported exactly once for each line it fires on, however many of its patterns match |
| Scanner.FilesInOrder | packages/registry/src/static-scanner.ts:78-120 | the report of a list of files is the reports of its parts one after the other |
| Scanner.LinesInOrder | packages/registry/src/static-scanner.ts:97-115 | within a file findings come by line |
| Scanner.RuleTable | packages/registry/src/static-scanner.ts:12-69 | three rules fail a scan and two warn, with two, six, eight, five and three patterns |
| Scanner.PassesIffEveryFileIsClean | packages/registry/src/static-scanner.ts:117-119 | a scan passes exactly when every file is readable and no pattern of an error rule matches any line; warnings do not fail it |
| Scanner.AddingFilesNeverHelps | packages/registry/src/static-scanner.ts:78-120 | adding or reordering files never turns a failed scan into a passed one |
| Scanner.LinesRoundTrip | packages/registry/src/static-scanner.ts:97-97 | splitting loses nothing: joining the lines gives the text back, and no line holds a line feed |
| Scanner.ScanContent | packages/registry/src/static-scanner.ts:97-115 | the loop over a file's lines appends the declared findings of that file, in order |
| Registry.VerifyFileHashes | packages/registry/src/file-hasher.ts:18-37 | the paths that are unreadable or whose hash differs, and none exactly when every file is intact |
| Registry.SkillRegistryService.RegisterSkill | packages/registry/src/skill-registry-service.ts:73-154 | a row is inserted exactly when all four gates pass and the name is not in the table; each refusal comes exactly in its case; duplicate is reported for an active name, and the call throws for a revoked one |
| Registry.SkillRegistryService.Get | packages/registry/src/skill-registry-service.ts:156-160 | the row, active or revoked |
| Registry.SkillRegistryService.List | packages/registry/src/skill-registry-service.ts:162-165 | exactly the active rows, each once, ordered by registration time |
| Registry.SkillRegistryService.RevokeSkill | packages/registry/src/skill-registry-service.ts:167-170 | changes exactly an active row, to revoked, and no other row |
| Registry.SkillRegistryService.IsRegistered | packages/registry/src/skill-registry-service.ts:172-174 | true exactly for active rows |
| Registry.RowsOnlyProgress | packages/registry/src/skill-registry-service.ts:53-71 | over any run a name is inserted at most once, goes from active to revoked at most once and never back, and its manifest, hash and time never change |
| Registry.EveryRowPassedTheGates | packages/registry/src/skill-registry-service.ts:73-154 | every row goes back to a registration at which schema, signature, file hashes and scan passed |
| Registry.RegistersIffNeverRegistered | packages/registry/src/skill-registry-service.ts:131-154 | a registration that passes the gates takes effect exactly when no earlier registration of that name did |
| Registry.RevokingDoesNotFreeTheName | packages/registry/src/skill-registry-service.ts:131-154 | whatever manifest is registered and revoked, any further manifest of that name that passes every gate leaves the revoked row |
| Text.AddressValueIffSameLetters | packages/policy/src/policy-engine.ts:26-51 | two address texts name the same account exactly when they agree up to letter case |
| Text.DecimalDigit | packages/policy/src/policy-engine.ts:53-60 | amounts are read in base ten |
| Text.HexDigit | packages/core/src/tx/builders/transfer-builder.ts:18-46 | addresses and words are read in base sixteen, in either letter case |
| Text.HexDigits | packages/core/src/tx/builders/transfer-builder.ts:18-46 | the hexadecimal digits are these 22 characters |
| Text.LettersHaveTwoCases | packages/policy/src/policy-engine.ts:26-51 | lower case changes the 26 capital letters, each to its own small letter, and nothing else |

## Left out

- Request handlers are steps on a state value instead of methods, because they interleave; the tables they change are classes in their own modules, and `evaluatePolicy`, `requestApproval` and the signing gates are methods tied to those steps. The audit events the handlers themselves log are not part of the protocol state.
- The bot's handlers are steps on a state value for the same reason.
- SQLite, the file system and the HTTP server: every statement and every call is one atomic operation on a map or sequence. Ties in `ORDER BY` and the order of map iteration are left open.
- keccak256, SHA-256, scrypt, AES-GCM and key derivation are parameters; where a result needs it, keccak is injective and the cipher opens exactly with its passphrase. ECDSA signing and the signed bytes are not modelled: a signature is the plan, its hash, the fees filled in before signing and the private key it is made with.
- Intents and configurations are those the request schemas let through (decimal amounts, 40-digit addresses). Lone surrogates in canonical JSON are not modelled; chain ids are printed exactly, which JavaScript does up to 2^53.
- The signing library is not part of this model: `Protocol.Signable` states which requests and fees it takes, and it may fail for other reasons.
- `safeEqual` compares texts; that it throws for texts of equal length whose byte lengths differ is not modelled.
- The 1inch server, RPC nodes, Telegram and the clock are the environment. Every unusable reply of 1inch is one case; a reply without `tx.to` or `tx.data`, which the code builds and signs as a request without that field, is not modelled. The clock never goes back, and `randomUUID` never repeats.
- A restart keeps the databases; calls that reach a database after shutdown are not modelled.
- Keystore operations do not overlap; mnemonic import is left out.
- `preflight-service.ts`: simulation, balance differences and allowance changes are RPC reads and appear only as the risk score they lead to. The route `tx/preflight` changes nothing that is modelled.
- Texts for people (summaries, reasons as sentences, formatters) are left out; of a summary the intent id and the hash are kept.
- The registry's schema validator and the scanner's regular-expression engine are parameters.
- Polling: the interval is a real number; rounding of the 1.5-fold growth in floating point is not modelled.
- The sandbox runner, the command line, the Eliza, MCP and OpenClaw adapters, routing between RPC clients and the balance routes would add only easy members.
