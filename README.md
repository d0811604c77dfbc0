# Algorythm-ai credit ledger, modelled in Dafny

This project models the credit ledger of the Algorythm-ai builder site and
every code path that changes it. Each user document in the `users`
collection holds two counters, `credits` and `freeAudits`, an `isAdmin`
flag and, for wallet users, a sign-in `nonce`. The model covers these
parts:

- **Metered builder pages.**
  - The testing page (`TestingPage`) and the NFT page (`NftPage`, with the
    per-item loop of the collection flow in `NftCollectionFlow`) use relative
    increments.
  - The dApp page (`DappPage`) and the cryptocurrency page (`CryptoPage`)
    write an absolute balance computed from the page's snapshot of the
    document. Their shared charge is `SnapshotMeter`.
- **Payment webhooks.** `StripeWebhook` and `NowPaymentsIpn` each decide
  which response to send and at most one credit increment.
- **Admin page.** `AdminPage` covers the add-credits dialog together with
  the `parseInt` of its amount field, the free-audit total and the admin
  guard.
- **Account creation.**
  - `SignupForm` covers the OAuth create-once document.
  - `SiweRoute` covers the wallet sign-in route: the nonce issue, nonce
    rotation and token.
- **Conversation router.** `DappConversation` models the router of the
  conversational dApp builder.

`Ledger` is the document store, shared by all of the above:
- `Users` is a map from user id to `Account`.
- A `Write` is an `update` (a relative `Increment`, an absolute
  `SetCredits`, or a `SetNonce`) or a `set` (`Put`).
- A trace of `Effect`s records every write the code attempts, whether the
  store accepted it, and every outside call (AI generation, image upload,
  project save, signature check, token creation) with whether it returned.
- `Replay` folds the accepted writes into the collection.
- An `update` of a missing document fails, as Firestore's does, and so does
  any write while the store is unreachable.

Each handler is modelled in two parts:
- A pure function computes the whole run: the trace, the page state after
  it, and the outcome.
- A method of a `Page` class (or a method on a `UserStore`) executes the
  handler step by step against the store. It is proved to produce exactly
  that run, and to leave the store at `Replay(old(users), trace)`.

The properties are lemmas about the pure functions:
- nothing is written on rejection;
- a failed generation is net zero;
- counters stay non-negative;
- the table amounts are exact;
- creation is idempotent;
- redelivering a webhook credits again.

## Model

| member | source | states |
|---|---|---|
| Ledger.UserStore.Update | src/app/builder/testing/page.tsx:84 | an `update` lands exactly when the store is reachable and the document exists, a `set` exactly when the store is reachable; a landed write gives `Apply` of it and a rejected one changes nothing |
| Ledger.ReplayLeavesOthers | src/app/api/stripe-webhook/route.ts:72-75 | a document that no write of the trace names keeps its value, or stays absent |
| Ledger.IncrementUndone | src/app/builder/testing/page.tsx:84-102 | a relative debit followed by the same relative refund restores the document exactly |
| Ledger.SnapshotRestored | src/app/builder/dapp/page.tsx:189-195 | writing back the snapshot restores the document when the snapshot is the stored balance, whether or not the preceding debit landed |
| TestingPage.ChooseCharge | src/app/builder/testing/page.tsx:67-77 | a free audit pays exactly when `freeAudits > 0`; 2 credits pay exactly when there is none and `credits >= 2`; otherwise the action is refused |
| TestingPage.Page.OnAnalyzeContract | src/app/builder/testing/page.tsx:57-113 | the handler's trace, `step`, result and outcome are those of `Analyze`, and the store ends at the replay of the trace |
| TestingPage.RejectedAnalysisWritesNothing | src/app/builder/testing/page.tsx:58-77 | with no user, no snapshot, or neither a free audit nor 2 credits, there is no write and no call, and the page is unchanged |
| TestingPage.AnalysisFollowsDebit | src/app/builder/testing/page.tsx:83-91 | the analysis is requested only as the second effect, right after a debit the store accepted |
| TestingPage.FreeAuditPreferred | src/app/builder/testing/page.tsx:67-85 | with a free audit left, a completed analysis writes `Debit` on the free-audit counter: it takes one free audit and leaves credits unchanged, even when `credits >= 2` |
| TestingPage.CreditsChargedWithoutFreeAudit | src/app/builder/testing/page.tsx:86-88 | with no free audit, a completed analysis writes `Debit` on the credits counter: it takes exactly 2 credits and leaves free audits unchanged |
| TestingPage.FailedAnalysisIsNetZero | src/app/builder/testing/page.tsx:99-111 | a failed analysis after an accepted debit, once refunded, leaves the collection as it was and the step back at `initial` |
| TestingPage.FailedDebitStillRefunded | src/app/builder/testing/page.tsx:82-105 | when the debit write throws, no analysis is requested, yet the refund runs and the paying counter ends one refund higher |
| TestingPage.DebitKeepsNonNegative | src/app/builder/testing/page.tsx:67-88 | `Debit`, for the charge the balance check allows, never takes a counter of a non-negative document below zero |
| TestingPage.RefundKeepsNonNegative | src/app/builder/testing/page.tsx:99-105 | `Refund` of either charge, written or not, leaves both counters of a non-negative document non-negative |
| TestingPage.AnalysisKeepsCountersNonNegative | src/app/builder/testing/page.tsx:67-105 | with the snapshot equal to a non-negative stored document, neither counter ends below zero, whatever fails |
| NftCollectionFlow.CollectedAreKeptItems | src/ai/flows/ai-powered-nft-collection-creation.ts:69-100 | the collected items are exactly the usable generations (output plus media URL, which replaces the image), in increasing index order, at most `n` of them |
| NftCollectionFlow.CreateNftCollection | src/ai/flows/ai-powered-nft-collection-creation.ts:63-104 | the loop calls `generate` once per index `0..n-1` and returns the collected items; a call that throws ends the flow at that index with no result |
| NftPage.GenerationCreditCost | src/app/builder/nft/page.tsx:147-150 | the cost is `numberOfNfts` for a positive count and 0 otherwise, so between 1 and 10 for a count the form accepts |
| NftPage.RequestCollection | src/app/builder/nft/page.tsx:238 | the page receives what the collection flow returns |
| NftPage.Attempt | src/app/builder/nft/page.tsx:234-257 | the `try` of the approval writes the debit, requests the collection only once the debit landed and uploads every item's image only once the collection came back; the uploaded collection is `UploadAll` of the one shown, and the store ends at the replay of those effects and keeps its documents |
| NftPage.Page.OnGeneratePlan | src/app/builder/nft/page.tsx:153-183 | the handler's trace, `step`, plan and outcome are those of `GeneratePlan`, and the store ends at the replay of the trace |
| NftPage.Page.OnApprovePlan | src/app/builder/nft/page.tsx:216-280 | the handler's trace, `step`, result and outcome are those of `ApprovePlan`, with the image uploads modelled item by item, and the store ends at the replay of the trace |
| NftPage.UploadAllReplacesImages | src/app/builder/nft/page.tsx:252-257 | the uploads succeed exactly when every item's upload does, so an empty collection always succeeds; each item then keeps its name, description and attributes, and its image becomes its URL |
| NftPage.CompletedIsUploadedCollection | src/app/builder/nft/page.tsx:234-260 | a collection request completes exactly when there is a user, the snapshot covers the cost, the debit lands, no generation throws and every upload returns; the result shown is then the generated collection, item for item, with each image replaced by its URL |
| NftPage.EmptyCollectionCompletes | src/app/builder/nft/page.tsx:234-260 | when no generation is usable and none throws, the request completes with an empty collection, whatever the uploads would do, and keeps the charge |
| NftPage.Page.HandleEdit | src/app/builder/nft/page.tsx:282-285 | the step goes back to `initial` and the result is cleared |
| NftPage.RejectedPlanWritesNothing | src/app/builder/nft/page.tsx:154-166 | a plan request with no user or under 3 credits writes nothing and leaves the page unchanged |
| NftPage.PlanGenerationFollowsDebit | src/app/builder/nft/page.tsx:167-171 | the plan is requested only as the second effect, right after an accepted debit of 3 credits |
| NftPage.PlanFailedDebitStillRefunded | src/app/builder/nft/page.tsx:168-181 | when the plan's debit throws, no plan is requested, yet the refund adds 3 credits and the step returns to `initial` |
| NftPage.PlanKeepsCreditsNonNegative | src/app/builder/nft/page.tsx:159-175 | with the snapshot equal to a non-negative stored document, a plan request never leaves the balance below zero, whatever fails |
| NftPage.FailedPlanIsNetZero | src/app/builder/nft/page.tsx:167-182 | a failed plan after an accepted debit, once refunded, is net zero and returns the step to `initial` |
| NftPage.PlanCharges3 | src/app/builder/nft/page.tsx:169-171 | a completed plan takes exactly 3 credits from the user and changes nothing else |
| NftPage.RejectedApprovalWritesNothing | src/app/builder/nft/page.tsx:217-230 | a collection request with no user or under its cost writes nothing and leaves the page unchanged |
| NftPage.FailedApprovalIsNetZero | src/app/builder/nft/page.tsx:234-279 | when the collection or an image upload throws after an accepted debit, the refund restores the collection and the step becomes `plan` |
| NftPage.ChargeIgnoresSkippedItems | src/app/builder/nft/page.tsx:235-260 | when nothing throws, the request completes with as many items as were usable and takes `numberOfNfts` credits, however many items were skipped |
| NftPage.FailedDebitStillRefunded | src/app/builder/nft/page.tsx:234-272 | when the debit throws, nothing is generated, yet the refund adds the cost to the balance |
| NftPage.GenerationFollowsDebit | src/app/builder/nft/page.tsx:234-238 | the collection is requested only as the second effect, right after an accepted debit of the cost |
| NftPage.ApprovalKeepsCreditsNonNegative | src/app/builder/nft/page.tsx:223-272 | with the snapshot equal to a non-negative stored document, a collection request never leaves the balance below zero, whatever fails |
| SnapshotMeter.Charge | src/app/builder/dapp/page.tsx:188-202 | the charge's trace and outcome are those of `ChargeSnapshot`, and the store ends at the replay of the trace |
| SnapshotMeter.ChargeStatus | src/app/builder/dapp/page.tsx:188-202 | a charge completes exactly when the debit lands and the call returns; it fails exactly when otherwise the restore lands; any other outcome is a restore that threw |
| SnapshotMeter.CompletedSetsSnapshotMinusCost | src/app/builder/dapp/page.tsx:189 | a completed charge leaves the balance at snapshot minus cost, whatever the store held |
| SnapshotMeter.FailedSetsSnapshot | src/app/builder/dapp/page.tsx:195 | a failed charge whose restore lands leaves the balance at the snapshot, whether or not the debit landed |
| SnapshotMeter.FreshFailureIsNetZero | src/app/builder/dapp/page.tsx:188-202 | with a snapshot equal to the stored balance, a failed charge is net zero |
| SnapshotMeter.RestoreThrewKeepsDebit | src/app/builder/dapp/page.tsx:195 | when the restore throws, the balance is either untouched or left at snapshot minus cost |
| SnapshotMeter.AfterCallsIsolated | src/app/builder/dapp/page.tsx:205-258 | the calls made after the metered call returned do not change the balance or the outcome |
| DappPage.Page.HandleGeneratePlan | src/app/builder/dapp/page.tsx:166-203 | the handler's trace, `step`, plan, result and outcome are those of `GeneratePlan`, and the store ends at the replay of the trace |
| DappPage.Page.HandleApprovePlan | src/app/builder/dapp/page.tsx:236-270 | the handler's trace, `step`, plan, result and outcome are those of `ApprovePlan`, and the store ends at the replay of the trace |
| DappPage.Page.HandleEdit | src/app/builder/dapp/page.tsx:276-280 | the step goes back to `initial`, and the plan and the result are cleared |
| DappPage.GuardedPlanWritesNothing | src/app/builder/dapp/page.tsx:168-183 | a plan request writes nothing exactly when the prompt is blank, a plan is under way, there is no user, or the snapshot holds under 3 credits; the page is then unchanged |
| JsText.TrimEmptyIffBlank | src/app/builder/dapp/page.tsx:168 | `!prompt.trim()` holds exactly when every character of the prompt is JavaScript white space; `Trim` is `TrimEnd` of `TrimStart`, each defined by dropping white space one character at a time, and `DappPage.Page.HandleGeneratePlan` tests `Trim(prompt) == ""` |
| DappPage.FailedPlanIsNetZero | src/app/builder/dapp/page.tsx:188-201 | with a fresh snapshot, a failed plan whose restore lands is net zero and returns to `initial` |
| DappPage.StalePlanSnapshotOverwrites | src/app/builder/dapp/page.tsx:189 | a plan charged from a stale snapshot sets the balance to the snapshot minus 3, overwriting the stored balance |
| DappPage.SaveFailureIsolated | src/app/builder/dapp/page.tsx:205-258 | whether the project save succeeds changes neither the balance, nor the step, nor the result, nor the outcome |
| DappPage.FailedApprovalIsNetZero | src/app/builder/dapp/page.tsx:252-268 | with a fresh snapshot, a failed generation whose restore lands is net zero, goes back to `plan` and keeps the earlier result |
| DappPage.PlanKeepsCreditsNonNegative | src/app/builder/dapp/page.tsx:176-201 | with a fresh, non-negative snapshot, a plan request never leaves the balance below zero |
| DappPage.RejectedApprovalWritesNothing | src/app/builder/dapp/page.tsx:237-251 | a dApp request with no user or a snapshot under 1 credit writes nothing and leaves the page unchanged |
| DappPage.ApprovalKeepsCreditsNonNegative | src/app/builder/dapp/page.tsx:243-268 | with a fresh, non-negative snapshot, generating never leaves the balance below zero |
| CryptoPage.Page.OnGeneratePlan | src/app/builder/crypto/page.tsx:151-184 | the handler's trace, `step`, plan and outcome are those of `GeneratePlan`, and the store ends at the replay of the trace |
| CryptoPage.Page.OnApprovePlan | src/app/builder/crypto/page.tsx:186-221 | the handler's trace, `step`, plan and outcome are those of `ApprovePlan`, and the store ends at the replay of the trace |
| CryptoPage.Page.HandleEdit | src/app/builder/crypto/page.tsx:223-226 | the step goes back to `initial` and the plan is cleared |
| CryptoPage.GuardedPlanWritesNothing | src/app/builder/crypto/page.tsx:152-165 | a plan request writes something exactly when a user is signed in and the snapshot holds 3 credits; otherwise the page is unchanged |
| CryptoPage.FailedPlanIsNetZero | src/app/builder/crypto/page.tsx:167-182 | with a fresh snapshot, a failed plan whose restore lands is net zero and returns to `initial` |
| CryptoPage.FailedApprovalIsNetZero | src/app/builder/crypto/page.tsx:202-219 | with a fresh snapshot, a failed design whose restore lands is net zero and goes back to `plan` |
| CryptoPage.StaleDesignSnapshotOverwrites | src/app/builder/crypto/page.tsx:204-208 | a design charged from a stale snapshot sets the balance to the snapshot minus 1; a failed save changes nothing about that |
| CryptoPage.PlanKeepsCreditsNonNegative | src/app/builder/crypto/page.tsx:158-182 | with a fresh, non-negative snapshot, a plan request never leaves the balance below zero |
| CryptoPage.RejectedApprovalWritesNothing | src/app/builder/crypto/page.tsx:187-200 | a design request with no user or a snapshot under 1 credit writes nothing and leaves the page unchanged |
| CryptoPage.ApprovalKeepsCreditsNonNegative | src/app/builder/crypto/page.tsx:193-219 | with a fresh, non-negative snapshot, a design request never leaves the balance below zero |
| StripeWebhook.CreditsForPrice | src/app/api/stripe-webhook/route.ts:15-20 | a price id buys 250, 100 or 40 credits exactly when it is the scale, pro or starter key (the later entry winning), and 0 otherwise |
| StripeWebhook.Post | src/app/api/stripe-webhook/route.ts:22-88 | the status and the new collection are those of `Handle` |
| StripeWebhook.GrantExactlyForPaidCheckout | src/app/api/stripe-webhook/route.ts:23-79 | the route's decision `StripeWebhook.Decide` grants credits exactly for a configured route, a verified `checkout.session.completed` event naming a user, and a first line item whose price is in the table |
| StripeWebhook.OnlyGrantWrites | src/app/api/stripe-webhook/route.ts:71-75 | a grant adds exactly the plan's credits to `client_reference_id` and changes nothing else; every other request leaves the collection as it was |
| StripeWebhook.StatusCodes | src/app/api/stripe-webhook/route.ts:23-87 | every answer of `StripeWebhook.Decide` is 200, 400, 500 or 503; 503 exactly when the route is not configured; 400 exactly for a bad signature, or a completed checkout without a user or without line items |
| StripeWebhook.PriceTable | src/app/api/stripe-webhook/route.ts:15-20 | with the three price ids set and distinct, they buy 40, 100 and 250 credits |
| StripeWebhook.UnsetPriceVariableMatchesUndefined | src/app/api/stripe-webhook/route.ts:17-19 | an unset price variable turns the literal id "undefined" into a key that buys that plan |
| StripeWebhook.RedeliveryCreditsAgain | src/app/api/stripe-webhook/route.ts:71-75 | `k` deliveries of one paid checkout add `k` times the plan's credits |
| NowPaymentsIpn.IpnSecret | src/app/api/nowpayments-ipn/route.ts:10-14 | the secret is present exactly when the variable is set, not empty and not the placeholder |
| NowPaymentsIpn.FixedEightRoundTrip | src/app/api/nowpayments-ipn/route.ts:59 | `FixedEight`, the route's `toFixed(8)`, renders an amount as digits, a point and exactly 8 digits, and that key reads back as the amount |
| NowPaymentsIpn.FixedEightInjective | src/app/api/nowpayments-ipn/route.ts:59-60 | two amounts share a `FixedEight` key only when they are equal |
| NowPaymentsIpn.TableKeys | src/app/api/nowpayments-ipn/route.ts:16-59 | the amounts 25, 50 and 100 render as exactly the table's keys `25.00000000`, `50.00000000` and `100.00000000` |
| NowPaymentsIpn.CreditsForKey | src/app/api/nowpayments-ipn/route.ts:16-60 | a key buys 0, 40, 100 or 250 credits (which key buys which is `AmountTable`) |
| NowPaymentsIpn.AmountTable | src/app/api/nowpayments-ipn/route.ts:16-60 | exactly the amounts 25, 50 and 100 buy credits, 40, 100 and 250 of them |
| NowPaymentsIpn.Post | src/app/api/nowpayments-ipn/route.ts:22-73 | the status and the new collection are those of `Handle` |
| NowPaymentsIpn.BadSignatureRefused | src/app/api/nowpayments-ipn/route.ts:40-47 | a header that does not match the body's signature is refused with 400 before any field is read, and nothing is written |
| NowPaymentsIpn.GrantExactlyForFinishedPayment | src/app/api/nowpayments-ipn/route.ts:50-65 | the route's decision `NowPaymentsIpn.Decide` grants credits exactly for a signed, `finished` payment with a truthy `order_id` and an amount in the table; the grant adds exactly those credits to that user, and every other notification writes nothing |
| NowPaymentsIpn.StatusCodes | src/app/api/nowpayments-ipn/route.ts:23-72 | every answer of `NowPaymentsIpn.Decide` is 200, 400, 500 or 503; 503 exactly without a usable secret; 400 exactly for a bad signature, or a `finished` payment without a truthy `order_id` |
| NowPaymentsIpn.GrantAdds | src/app/api/nowpayments-ipn/route.ts:62-65 | a granted notification, once the store takes the write, adds exactly its credits to the user it names |
| NowPaymentsIpn.WaitingThenFinished | src/app/api/nowpayments-ipn/route.ts:52-68 | a `waiting` notice writes nothing; the `finished` notice of 25 that follows adds 40 credits |
| NowPaymentsIpn.RedeliveryCreditsAgain | src/app/api/nowpayments-ipn/route.ts:62-65 | `k` deliveries of one finished payment add `k` times its credits |
| AdminPage.ParseNumeral | src/app/admin/page.tsx:84 | `ParseAmount` (`parseInt(value, 10) || 0`, through `ParseInt` on the `TrimStart`ed text) reads a typed number, with or without a sign and whatever follows its digits, back as itself |
| AdminPage.ParseSkipsWhiteSpace | src/app/admin/page.tsx:84 | leading white space (dropped by `JsText.TrimStart`) does not change `ParseAmount` |
| AdminPage.NoDigitsIsZero | src/app/admin/page.tsx:84 | `ParseInt` finds no number, and `ParseAmount` gives 0, for input without a digit after its white space and sign |
| AdminPage.AddCreditsDialog.OnAmountChange | src/app/admin/page.tsx:84 | the amount field holds `parseInt(value, 10) || 0` |
| AdminPage.AddCreditsDialog.HandleAddCredits | src/app/admin/page.tsx:26-58 | the dialog state and the collection are those of `AddCredits` |
| AdminPage.AddCreditsOutcome | src/app/admin/page.tsx:26-58 | only a positive amount writes; the write adds exactly that amount to the user's credits and nothing else; a landed write closes the dialog and clears the amount, and a failed one leaves both; `isUpdating` always ends false |
| AdminPage.NonNumericInputRejected | src/app/admin/page.tsx:27-84 | typing something without digits and confirming writes nothing |
| AdminPage.SumFreeAuditsAppend | src/app/admin/page.tsx:143 | the total over two lists run together is the sum of their totals |
| AdminPage.SumFreeAuditsBounds | src/app/admin/page.tsx:143 | with no negative counter stored, `SumFreeAudits` lies between 0 and `m` per user |
| AdminPage.TotalFreeAuditsBounds | src/app/admin/page.tsx:143 | `TotalFreeAudits` (`totalFreeAudits`) is 0 while the user list is absent, and otherwise lies between 0 and `m` per listed user |
| AdminPage.MissingCountsZero | src/app/admin/page.tsx:143 | users without `freeAudits` count as 0 |
| AdminPage.GuardDecisions | src/app/admin/page.tsx:109-128 | the guard renders its children exactly for a loaded admin, and then does not redirect; a signed-out visitor is sent to login and a non-admin to the dashboard |
| SignupForm.NewOAuthAccount | src/components/auth/signup-form.tsx:60-68 | a new document has the user's id, 8 credits, 0 free audits and no admin rights |
| SignupForm.CreateUserDocumentIn | src/components/auth/signup-form.tsx:50-72 | the read-then-create against the store gives the collection and the throw of `CreateUserDocument` |
| SignupForm.CreateUserDocumentOutcome | src/components/auth/signup-form.tsx:55-71 | a call that does not throw leaves `uid` with its existing document or the defaults; one that throws writes nothing; it throws exactly when the read fails or the needed write fails |
| SignupForm.CreateOnceIdempotent | src/components/auth/signup-form.tsx:55-71 | creating twice is creating once, and other documents never change |
| SignupForm.SecondCreateChangesNothing | src/components/auth/signup-form.tsx:55-58 | after a call that did not throw, a second call changes nothing, whatever the store does |
| SignupForm.HandlePopupSignIn | src/components/auth/signup-form.tsx:91-118 | the collection is `SignUp` of the popup, and success means that the popup returned a user and creation did not throw |
| SignupForm.SignupPaths | src/components/auth/signup-form.tsx:42-118 | the e-mail path and a failed popup write nothing; a successful popup creates the document once |
| SiweRoute.NewWalletAccount | src/app/api/siwe/route.ts:15-22 | a new wallet document has the address as id, 5 credits, 5 free audits, no admin rights and the fresh nonce |
| SiweRoute.GetOrCreateUser | src/app/api/siwe/route.ts:7-25 | an existing document is returned unchanged with nothing written; otherwise the wallet defaults are `set`, and the call throws exactly when the read or that write fails (with line 11 corrected; see Findings) |
| SiweRoute.CatchIn | src/app/api/siwe/route.ts:59-71 | the `catch` block against the store gives `Catch`: 500, with a second nonce written to `message.address` when there is one |
| SiweRoute.PostIn | src/app/api/siwe/route.ts:27-73 | the status, the reply and the trace are those of `Post`, and the store ends at the replay of the trace (with line 11 corrected; see Findings) |
| SiweRoute.NonceActionIn | src/app/api/siwe/route.ts:37-71 | the `nonce` branch against the store gives `NonceAction`, and the store ends at the replay of the trace (with line 11 corrected; see Findings) |
| SiweRoute.VerifyActionIn | src/app/api/siwe/route.ts:43-71 | the `verify` branch against the store gives `VerifyAction`, and the store ends at the replay of the trace |
| SiweRoute.NonceActionReturnsStoredNonce | src/app/api/siwe/route.ts:8-41 | for a known address the `nonce` action answers with the stored nonce and writes nothing (with line 11 corrected; see Findings) |
| SiweRoute.NewWalletDefaults | src/app/api/siwe/route.ts:15-41 | on first contact the `nonce` action creates the wallet's document with the defaults and answers with its nonce (with line 11 corrected; see Findings) |
| SiweRoute.NonceRotatedBeforeToken | src/app/api/siwe/route.ts:43-55 | a token is returned only after the signature check and an accepted nonce write, in that order, and the stored nonce is then the fresh one |
| SiweRoute.VerifyIgnoresStoredNonce | src/app/api/siwe/route.ts:44-45 | the stored nonce of any user changes neither the status nor the reply of `verify` |
| SiweRoute.ErrorsRotateNonce | src/app/api/siwe/route.ts:59-71 | every failing `nonce` or `verify` request answers 500, and its last effect is writing the second fresh nonce to `message.address` |
| SiweRoute.UnknownActionRejected | src/app/api/siwe/route.ts:58 | any other action answers 400 and touches nothing |
| SiweRoute.NonceActionAsWrittenFails | src/app/api/siwe/route.ts:11-71 | as written, the `nonce` action for a known wallet answers 500 and rotates the nonce, where the corrected route answers 200 with the stored nonce |
| DappConversation.ChooseBranch | src/ai/flows/conversational-dapp-builder.ts:7-57 | an empty conversation has no branch; a single message takes the plan branch; otherwise the code branch is taken exactly when `Approves` holds of the last message (its lower-cased text contains `approve`), and the refine branch exactly when it does not |
| DappConversation.SingleMessagePlans | src/ai/flows/conversational-dapp-builder.ts:9-23 | a single message takes the plan branch, even one that approves |
| DappConversation.SubstringMatches | src/ai/flows/conversational-dapp-builder.ts:25 | `Approves` is a substring test: `APPROVED` and `I disapprove` take the code branch; `looks good` takes the refine branch |
| DappConversation.OnlyLastContentDecides | src/ai/flows/conversational-dapp-builder.ts:8-25 | two conversations of the same length whose last messages have the same content take the same branch, whatever the roles |

## Left out

- UI rendering is not modelled: JSX, toasts, dialogs' markup, checklists,
  skeletons and the `LivePreview` component, which evaluates generated code.
  Only the `step` values and the fields the handlers set are kept.
- AI prompts and flows are outside calls. They succeed or fail through a
  parameter: a result that is `None` when the call throws.
- The same holds for the image uploads of the NFT page, the Stripe calls
  (`constructEvent`, `sessions.retrieve`), SIWE message verification
  (EIP-4361), Firebase custom-token creation and `uuidv4`.
- The NOWPayments HMAC-SHA512 over the sorted-key JSON is a function
  parameter `sign` that is compared for equality. The cryptography is not
  modelled.
- `Number(price_amount).toFixed(8)` is modelled only for amounts that are
  whole hundred-millionths, given as a count of them (`None` for NaN).
  Floating-point rounding is not modelled.
- A non-string `order_id` is not modelled: the user id is an optional
  string.
- Concurrency is not modelled: runs are sequential. Firestore increments and
  the absolute writes of the dApp and crypto pages differ only under
  interleaving. The stale-snapshot lemmas show what an absolute write
  overwrites.
- Each write's success is an independent flag. The reasons a write fails
  (network, permissions) are not modelled.
- `setDoc(..., { merge: true })` on sign-up is modelled as a plain create.
  It runs only when the document does not exist, so merging has nothing to
  merge with.
- The profile fields `email`, `displayName` and `photoURL` of the sign-up
  document are not modelled, nor is the project save's document contents.
  The save appears only as a call in the trace.
- The forms' schemas do not gate the modelled handlers: the minimum
  lengths of the testing page's contract code (50), the NFT description
  (10), the cryptocurrency description (20) and the sign-up password (8),
  the NFT count of 1 to 10 and e-mail validation. They run in the browser
  before a handler is called, and every handler is modelled from the
  moment it is called, on any input.
- `parseInt` is modelled on exact integers. Precision loss above 2^53 is not
  modelled.
- `req.json()` failures, and a failure of the Stripe route's `req.text()`
  (src/app/api/stripe-webhook/route.ts:32, outside any `try`), are not
  modelled. Neither is the
  `getAdminDb`/`adminDb` mismatch between the IPN route and
  `src/firebase/admin.ts`: the model takes the store's availability as a
  flag.
- The client-side wallet sign-in flow in the sign-up form is not modelled.
  It sends `{address}` while the route reads `message.address`; the route
  is modelled as written.
- No idempotency guard or processed-event record exists in the code, and
  none is modelled: `RedeliveryCreditsAgain` proves that each delivery
  credits again.
- The NFT page's image upload is modelled with Firebase Storage
  configured. The branch for a missing storage, which skips the upload and
  the save, is not modelled. The page's non-blocking project save swallows
  its own errors and does not appear in the NFT trace.
- NftCollectionFlow.CreateNftCollection: the loop's bound is modelled on an
  integer count. A non-integer `numberOfNfts` is not modelled, because the
  form bounds it to whole numbers 1 to 10.

## Findings

| source | as written | input that shows it | evidently intended | confidence | as-written member | corrected member |
|---|---|---|---|---|---|---|
| src/app/api/siwe/route.ts:11 | `userDoc.exists()` calls `exists` as a method, but on the Admin SDK's document snapshot `exists` is a boolean property, so the call throws after every successful read and the `nonce` action always lands in the `catch` | `POST /api/siwe?action=nonce` with `message.address` of a stored wallet and a reachable store: 500 and a rotated nonce instead of 200 and the stored nonce | read `userDoc.exists` as a property and answer with the stored or new nonce | medium, not executed | SiweRoute.NonceActionAsWritten (shown by SiweRoute.NonceActionAsWrittenFails) | SiweRoute.Post (proved in SiweRoute.NonceActionReturnsStoredNonce and SiweRoute.NewWalletDefaults) |
