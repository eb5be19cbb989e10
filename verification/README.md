# Verified model of the wallet API core

A Dafny model of the parts of the wallet back end where a wrong step moves money or opens an account, with
proofs of what those parts promise. `dafny verify dfyconfig.toml` checks everything.

How the model is laid out:

- **Protocols are state machines.** A database statement, a queue insertion, a Redis command or script and a
  chain call is one atomic step; every request and job in flight has a program counter; a run is any finite
  sequence of steps of any number of them, and steps may fail. `Transfers`, `PinLockout` and
  `VerificationCodes` define the machines (`Step`, `Run`); the theorems quantify over every run.
- **Services are programs.** `TransferService.Service`, `PinService.Pins` and
  `VerificationService.CodeStore` hold the tables as fields, and their methods follow the source statement by
  statement. Before each statement an arbitrary sequence of other parties' steps runs, and the statement may
  throw. A schedule says both (`TransferSchedules`, `PinService.Turns`); what a transfer call or job makes of
  the tables is the one store its turns lead to (`SameAnswer`, `SameEnd`). With nothing else running, the
  methods are proved against functions of the tables before the call, whichever of their statements throw
  (`TransferOutcomes`), and against conditions on the fields (`TransferAnswers`, `PinLockout.GateAnswers`).
  `Ramp.RampService` and `Registry.TokenRegistry` are proved against specification functions.
- **Money, encodings, tokens and keys are functions** (`Money`, `DecimalColumn`, `Spl`, `Evm`, `Registry`,
  `Jwt`), with the byte buffer of the SPL encoder as an array written in place.

Some fields are history kept for the proofs and are not columns of the source: the origin of a row or a job
(`RowOrigin`, `JobOrigin`), what the chain told a job (`Job.heard`), which lookup a reply came from and the
recipient it had resolved (`Via`), whether the last write landed (`stranded`, `written`), `Attempt.wrote`,
`counted`, `lost`, `entered` and `Tally` for PIN attempts, and `Entry.serial`, `Call.hit`, `Call.took` and `Call.read` for codes. No branch of a program
reads them.

## Results in brief

- A prepared intent yields one ledger row and one submit job at most, in every interleaving with failing
  steps; what is queued carries a signature that moves exactly what the row says; a submit that fails before
  its row leaves no trace once its release is written; a spent intent without a link always has a live owner,
  a release that threw, or a row whose link failed or is under way.
- An intent is good for ten minutes to the millisecond: every USED one was claimed before it expired, and every
  refusal and reply was true at the step that gave it. Undisturbed calls answer as the fields of the tables say,
  and whichever of their statements throw, what they leave behind is known exactly.
- A tracked row gets one process job ever and has one live job at a time; terminal statuses are never left. A
  COMPLETED row goes back to a confirmed poll of its own hash; a FAILED one to a reverted poll of it, to a
  transaction the chain never took, to one it took before the worker threw, to an empty hash, or to the submit
  that closed it. A row in flight has a live holder or job, or a job or a release write of its own that threw.
- A reply of `send` names a row of the same user and key, and describes the request whenever all calls of the
  user under that key ask for the same transfer.
- PIN failures are conserved (counted = 5 x armings + counter + discarded), N wrong attempts arm the lock
  between 1 and N/5 times, the retry loop is lock-free with an explicit measure, a lock keeps everyone
  out for fifteen minutes, and the PINs compared up to the end of its window are accounted for exactly.
- An expired code is told so before anything else, whatever was typed. Each issued code is verified once at most, after at most max - 1 counted failures, and the budget is exact.
- The decimal parser accepts exactly the amounts that are a whole number of base units; parsing and printing
  are mutually inverse; the signed-transaction verifier accepts exactly the transactions whose effect is the
  intent's demand, but for an asset it does not know.

Where the code falls short of its own words, the model keeps the code and says exactly when:

- An asset mismatch is meant to fail the submit (`src/services/transaction/externalTransfer.service.ts:329-331`).
  An asset that `resolveAsset` refuses, such as a token dropped from the configuration after `prepare`, is
  verified as a native payment instead (`Evm.VerifierAcceptsIffEffectIsDemand`, `Evm.DroppedTokenPaidNatively`).
- The comment at `src/services/transaction/externalTransfer.service.ts:338` says a signed transaction is
  checked byte for byte. A token call is checked on its first 68 bytes only, because the ABI decoder ignores
  trailing bytes (`Evm.TokenAcceptanceReadsOnePrefix`, `Evm.TrailingBytesAccepted`).
- An amount below 10^-6 passes the ledger schema but is read back from its column in exponent notation, which
  does not convert: its signed transaction is always rejected (`Evm.SignedPlanAccepted`,
  `Evm.NativePaymentAcceptedIff`).
- A retry that resends the very amount it sent is refused as a different transfer exactly when that amount has
  redundant leading zeros or is below 10^-6 (`TransferOutcomes.RetryMatchesIff`).
- A key that describes a different transfer is meant to be refused
  (`src/services/transaction/transaction.service.ts:119-123`). Two lookups let one through. The fast path knows
  no recipient for a request by account id, so a key reused for another account id, with equal chain, asset and
  amount, is answered with the row that pays the first, no race needed (`TransferReplies.QuietReplayPaysAnotherIff`,
  `TransferReplies.AnotherPayeeIsToldOfTheFirst`). And the look inside the transaction compares nothing, so of
  two requests in flight one can be answered with the other's row exactly when that is another transfer at all
  (`TransferReplies.InsideReplayConfusesIff`, `TransferReplies.InsideReplayNamesAnIntent`).
- The worker's `catch` is for a failed broadcast (`src/jobs/transaction.worker.ts:92-95`), but it also covers the
  two statements after the broadcast. When one of them throws, the row is FAILED for good though the chain took
  the transaction, and no check is queued that could find out (`TransferFailures.FailedThoughTakenIff`,
  `TransferFailures.TakenTransferEndsFailed`).
- Nothing compares signed transactions across calls: two rows are settled by one transaction exactly when two
  calls handed it over (`TransferHashes.ShareHashIff`, `TransferHashes.OneTransactionTwoRows`).
- The PIN is compared before the failure is counted, so calls past the lock check as the lock is armed still
  compare theirs: up to the end of the window five PINs are compared and one for each such call, and one for
  each call that died before its count (`PinWindow.ComparedPerWindow`).
- The delete of an expired code is unconditional, so it can delete a code issued in between, which the two
  scripts are written to prevent (`VerificationCodes.ExpiredRequestDropsNewCode`, `RecordLeavesIff`). And a
  code read in time can be consumed after its expiry (`VerificationCodes.ConsumedAfterExpiry`).
- "A terminal status is never walked backwards" (`src/services/ramp/ramp.service.ts:46-50`) holds when
  handlers run one after another. Both handlers read and then write: overtaken by any mix of handlers, a
  reconciliation lowers the status exactly when one of them can take the row above its target, and a webhook
  exactly when one can take it above its own status (`Ramp.LateReconcileLowersIff`, `Ramp.LateWebhookLowersIff`).
- Webhook order does not matter exactly when no delivery outranks the row or some event id is sure to reach
  the top rank (`Ramp.OrderIrrelevantIff`). One provider reuses a payment's id for all its events
  (`src/services/ramp/providers/yellowcard.provider.ts:331`), and then it does matter
  (`Ramp.ReusedEventIdBreaksOrder`).
- The PIN swap compares the counter and not the lock, so a wrong PIN that read an expired lock can remove the
  lock five others have armed since (`PinLockout.StaleSwapRemovesLock`, `PinLockout.ActiveLockMovesIff`);
  without an expiry nothing but a reset shortens a lock (`PinLockout.LockMovesOnlyByResetOrFifth`).
- `VerifyFailure` lists `revoked_key`, which `verifySessionToken` never returns; the model has the reasons it
  does return.

## Model

| member | source | states |
|---|---|---|
| TransferTheorems.IntentSpentOnce | src/services/transaction/externalTransfer.service.ts:231-326 | in every run one row and one submit job per intent, and one live owner of a claimed, unlinked intent |
| TransferExpiry.IntentsTimed | src/services/transaction/externalTransfer.service.ts:164-239 | in every run an intent was prepared for its user with its terms and expires 600000 ms after that; a USED one was claimed by a submit of its own user, at the time it says, before it expired |
| TransferExpiry.TenMinutes | src/services/transaction/externalTransfer.service.ts:232-252 | prepared, and submitted `late` milliseconds afterwards with nothing else running: created below 600000, else refused as expired with the intent still READY |
| TransferExpiry.LinkedStaysUsed | src/services/transaction/externalTransfer.service.ts:288-325 | no statement gives back an intent that is linked to its row |
| TransferHistories.RefusalsSeen | src/services/transaction/externalTransfer.service.ts:242-254 | in every run a refused submit had looked in vain for its own row under the key, and then saw its intent missing or another's, USED, expired, or READY again, as the refusal says |
| TransferTheorems.RowKeepsIntentUsed | src/services/transaction/externalTransfer.service.ts:256-299 | once its row exists an intent is never READY again, and its terms and owner stay those of the row |
| TransferTheorems.RollbackRestores | src/services/transaction/externalTransfer.service.ts:288-292 | a submit that releases before its row exists leaves the intent as it was before the claim, whatever ran in between, and no row or job of its own |
| TransferTheorems.OwnedIntentRun | src/services/transaction/externalTransfer.service.ts:262-325 | while a call owns an intent no other step changes it, and ownership given up is not regained |
| TransferTheorems.SubmitJobsVerified | src/services/transaction/externalTransfer.service.ts:264-301 | every submit job carries a signature the verifier accepted for the terms of its row, and the row's intent is USED and linked to it |
| TransferTheorems.BroadcastMovesWhatTheRowSays | src/services/transaction/externalTransfer.service.ts:345-411 | with the real verifier, the queued transaction's effect is the demand of its row, or for a row whose asset resolveAsset refuses the native payment of its amount |
| TransferTheorems.RowsCopyTheirRequest | src/services/transaction/externalTransfer.service.ts:269-279 | every row agrees field by field with the intent or the send request that made it, its recipient the one that call had resolved |
| TransferTheorems.OneRowPerKey | src/services/transaction/transaction.service.ts:217-224 | over any mix of send and submit, one row per key, replies name the caller's own row under the caller's key, and replies under one key agree |
| TransferTerms.MatchesIff | src/services/transaction/transaction.service.ts:206-215 | on every input: the stored transfer passes exactly when chain and asset are equal, the amounts are one number with equal redundant zeros, and the recipients are one up to case where there is one to compare |
| TransferReplies.SendRepliesMatch | src/services/transaction/transaction.service.ts:124-199 | in every run a reply names the row of one call of the same user under the same key: its own, or one that asked for the same chain, asset, number and recipient, but for the fast path of a request by account id, where the recipient is not compared, and the look inside the transaction, where nothing is |
| TransferHistories.RepliesSeen | src/services/transaction/transaction.service.ts:124-199 | in every run a reply of send was given at the very lookup it names, which found the user's row under the key, or at the insert that made it |
| TransferReplies.RepliesMatchWhenRivalsAgree | src/services/transaction/transaction.service.ts:119-199 | in every run a reply names the call's own row or one asked for with its chain, asset, number and recipient, if all other calls of the user under the key, sends and submits, ask for that transfer |
| TransferReplies.QuietReplayPaysAnotherIff | src/services/transaction/transaction.service.ts:119-148 | for every store with distinct keys: with nothing else running a reply from a row already there describes another transfer exactly when the request is by account id, chain, asset and number agree, and the row pays someone else |
| TransferReplies.AnotherPayeeIsToldOfTheFirst | src/services/transaction/transaction.service.ts:124-125 | the run, one call after the other: the same amount to another account id under the same key is answered with the first account's row |
| TransferReplies.InsideReplayConfusesIff | src/services/transaction/transaction.service.ts:161-164 | of two requests under one key, one can be answered by that look with the other's row as another transfer exactly when what the other stores does not match it, in chain, asset, amount or recipient |
| TransferReplies.InsideReplayNamesAnIntent | src/services/transaction/transaction.service.ts:161-164 | a run in which that look answers with the row of a submitted intent, whatever its terms |
| TransferTheorems.RowHandedOverOnce | src/services/transaction/transaction.service.ts:82-104 | one process job ever, one live job at a time, checks poll the recorded hash, receipts only for COMPLETED rows and one each; a row in flight has a live holder or job, a crashed job, or a release or mark whose write threw |
| TransferTheorems.StepMovesLegally | src/jobs/transaction.worker.ts:40-98 | the complete list of who may move a row from which status to which; back to PENDING only by the claimer's own release, with no job and no other holder |
| TransferTheorems.TerminalStays | src/jobs/transaction.worker.ts:43-51 | COMPLETED and FAILED are never left, whatever runs afterwards |
| TransferSettlement.OutcomesHaveCauses | src/jobs/transaction.worker.ts:40-97 | in every run a tracked COMPLETED row or receipt goes back to a poll of its own hash answered confirmed; a FAILED row to one answered reverted, to a job whose transaction the chain never took, to one that threw after the chain took it, to a check of an empty hash, or to the submit that closed it; and a written verdict stays in the row |
| TransferFailures.FailedThoughTakenIff | src/jobs/transaction.worker.ts:75-97 | in every run a FAILED tracked row had its transaction taken by the chain, with no reverted poll, exactly when its job threw as it recorded the hash or queued the check, or the hash was empty; after such a throw the row has no check job |
| TransferFailures.AbandonedAfterSend | src/jobs/transaction.worker.ts:75-97 | from any store with a process job to run, a run that records the hash the chain gave and then fails the row |
| TransferFailures.TakenTransferEndsFailed | src/jobs/transaction.worker.ts:81-97 | the whole run from send to FAILED with the hash on the row, and FAILED it stays in every later run |
| TransferHashes.ShareHashIff | src/jobs/transaction.worker.ts:81-85 | where the chain names transactions by an injective hash, in every run two tracked rows carry one hash exactly when two calls handed over one signed transaction for them |
| TransferHashes.SharedTransactionIsOneMovement | src/services/transaction/externalTransfer.service.ts:264-301 | in every run, submitted rows whose jobs carry one signed transaction are held to one movement by the real verifier |
| TransferHashes.OneTransactionTwoRows | src/services/transaction/externalTransfer.service.ts:224-326 | a run in which one payment prepared twice and submitted with one signature leaves two COMPLETED rows with one hash |
| TransferSettlement.SpentIntentsExplained | src/services/transaction/externalTransfer.service.ts:256-325 | in every run a USED, unlinked intent has a live owner, a release whose write threw, or a row whose link is under way or failed |
| TransferSettlement.RefusalsTruthful | src/services/transaction/externalTransfer.service.ts:264-293 | in every run a rollback for a rejected signature or a key conflict has that very reason on record |
| TransferTheorems.RunIsFine | src/services/transaction/externalTransfer.service.ts:224-326 | the whole invariant, ownership, lifecycle and accounting, holds in every reachable store |
| TransferSettlement.RunIsGood | src/services/transaction/externalTransfer.service.ts:224-326 | all of it, ownership, lifecycle, accounting, causes and reasons, holds in every reachable store |
| TransferInvariants.RunKeepsInv | src/services/transaction/externalTransfer.service.ts:224-326 | ownership of intents, provenance of rows and jobs, and what each in-flight call may rely on, kept by every run |
| TransferLifecycle.RunKeepsLives | src/jobs/transaction.worker.ts:34-98 | at most one holder or live job per tracked row, each fitting the row's status, kept by every run |
| TransferOutcomes.SubmitQuietly | src/services/transaction/externalTransfer.service.ts:224-326 | with nothing else running, whichever statements throw: tables and answer are SubmitEnds; a failure before the row gives the intent back, one after it leaves the row FAILED |
| TransferAnswers.SubmitAnswers | src/services/transaction/externalTransfer.service.ts:224-326 | read off the tables: the user's row under the key is replayed; else another user's or missing intent is 404, a USED one already submitted, one with expiresAt <= now expired, all leaving every table as it was; a rejected signature or another user's key likewise; otherwise one row, its intent spent and linked, one job |
| TransferOutcomes.SendQuietly | src/services/transaction/transaction.service.ts:107-200 | with nothing else running, whichever statements throw: tables and answer are SendEnds; a statement that throws, or a recipient not found, changes nothing |
| TransferAnswers.SendAnswers | src/services/transaction/transaction.service.ts:107-200 | read off the fields: the user's row under the key is replayed when chain, asset and amount agree and the recipient does or none is named, and the request refused for any other; another user's key is refused, a free one makes one row of the request's fields |
| TransferOutcomes.RetryMatchesIff | src/services/transaction/transaction.service.ts:9-14 | the very request that made a row matches it exactly when its amount has no redundant leading zeros and is not below 10^-6 |
| TransferOutcomes.BroadcastQuietly | src/services/transaction/transaction.service.ts:73-105 | with nothing else running, whichever statements throw: the sender of a PENDING row starts one job, or lets go of the row when the queue fails; a PROCESSING row is replayed, a reader who is not the sender changes nothing |
| TransferAnswers.BroadcastAnswers | src/services/transaction/transaction.service.ts:73-104 | read off the row: neither its sender nor the owner of the account id it pays is told 404; only the sender of a PENDING row moves it, with one job |
| TransferOutcomes.JobQuietly | src/jobs/transaction.worker.ts:34-98 | with nothing else running, whichever statements throw: what each answer of the chain and each failure makes of row, hash, receipts and queue |
| TransferService.Service.Submit | src/services/transaction/externalTransfer.service.ts:224-326 | under any schedule the store its turns lead to, keeping every invariant; faultless, nothing internal goes wrong, and a landed claim, an accepted signature and a key of its own end in a fresh row; quiet, exactly SubmitEnds whatever throws, and SubmitAnswered when nothing does |
| TransferService.Service.Send | src/services/transaction/transaction.service.ts:107-200 | under any schedule the store its turns lead to; a reply names a row of the caller with the caller's key, its own or one matching as far as its lookup compares, and asked for as the same transfer when all calls under the key agree; quiet, exactly SendEnds whatever throws, and SendAnswered when nothing does |
| TransferService.Service.Broadcast | src/services/transaction/transaction.service.ts:73-105 | under any schedule the store its turns lead to, letting go of the row; quiet, exactly BroadcastEnds whatever throws, and BroadcastAnswered when nothing does |
| TransferService.Service.ProcessJob | src/jobs/transaction.worker.ts:34-98 | under any schedule the store its turns lead to, a written verdict being what the row says; quiet, exactly JobEnds whatever throws |
| PinLockout.Conservation | src/services/auth/pinLockout.service.ts:71-128 | counted failures plus the initial counter = 5 x armings + stored counter + discarded, and the counter stays in 0..4, in every run |
| PinLockout.CounterBelowThreshold | src/services/auth/pinLockout.service.ts:97-110 | the stored counter never reaches the threshold, with anything in flight |
| PinLockout.WrongBurstArms | src/services/auth/pinLockout.service.ts:83-118 | N >= 5 finished wrong attempts arm the lock at least once and at most N/5 times, once for N up to 9, under any schedule and mix of gates |
| PinLockout.IterationsBounded | src/services/auth/pinLockout.service.ts:72-119 | each lost swap is covered by a write of another attempt since the loop was entered; at most N iterations for N attempts; an undisturbed swap wins |
| PinWindow.ComparedPerWindow | src/services/auth/pinLockout.service.ts:136-166 | with wrong PINs alone and no expiry, the PINs compared up to the end of the lock window: five, one for every call past the lock check as the lock is armed that lives to compare, and one for every call that died between comparison and count |
| PinWindow.LockLastsFifteenMinutes | src/services/auth/pinLockout.service.ts:97-145 | after a fifth counted failure at time t, in every continuation without a reset or an expired snapshot's swap, whoever comes to the lock check before t + 900000 is refused, right PIN or not; if nothing writes the lock, whoever comes later goes on to the comparison |
| PinLockout.GateMeans | src/services/auth/pinLockout.service.ts:136-166 | in figures, what a gate answers and leaves: refused under an active lock, cleared by the PIN, locked for 900000 ms by a fifth wrong PIN, counted from one after an expired lock |
| PinLockout.EveryAttemptStepMakesProgress | src/services/auth/pinLockout.service.ts:72-119 | the lexicographic measure (attempts that may still write, total weight) that every step of an attempt lowers |
| PinLockout.QuietLockHolds | src/services/auth/pinLockout.service.ts:136-145 | while a lock lasts and nobody is past the lock check, counter, lock, PIN and totals stay, and everyone answered meanwhile is refused, right PIN or not |
| PinLockout.ActiveLockMovesIff | src/services/auth/pinLockout.service.ts:101-127 | exactly which steps move an active lock |
| PinLockout.LockMovesOnlyByResetOrFifth | src/services/auth/pinLockout.service.ts:77-110 | in runs without a lock expiring no snapshot is expired, so only a reset or a fifth count moves the lock, and a fifth count never shortens it |
| PinLockout.StaleSwapRemovesLock | src/services/auth/pinLockout.service.ts:81-110 | a run in which a wrong PIN removes the lock five others have just armed |
| PinLockout.StoredPinHasAuthor | src/services/auth/auth.service.ts:336-338 | in every run the stored PIN is the first one or what a passed change asked for |
| PinLockout.RunKeepsLockFree | src/services/auth/pinLockout.service.ts:71-120 | losses are charged to writes, and totals agree with attempts, in every run |
| PinService.Pins.GetLockState | src/services/auth/pinLockout.service.ts:53-61 | locked exactly when a lock time lies in the future |
| PinService.Pins.CompareAndSwap | src/services/auth/pinLockout.service.ts:101-110 | writes exactly when the counter still has the value read |
| PinService.Pins.RecordFailure | src/services/auth/pinLockout.service.ts:71-120 | terminates after at most one retry per interfering round, or where a statement throws; the result is the count its own write recorded, or the threshold under an active lock; undisturbed it counts once |
| PinService.Pins.ReadRow | src/services/auth/pinLockout.service.ts:73-95 | the snapshot, whether a past lock expired, and whether an active one ends the loop |
| PinService.Pins.SwapOnce | src/services/auth/pinLockout.service.ts:97-118 | one swap: the count recorded and the lock armed, or a loss |
| PinService.Pins.ResetCounter | src/services/auth/pinLockout.service.ts:122-128 | a successful entry clears counter and lock |
| PinService.Pins.Authorize | src/services/auth/pinLockout.service.ts:136-166 | a run under any interference that errs only where a statement threw; calm, 423, 409, pass or 401 exactly as GateReply and the row as GateRow |
| PinService.Pins.AssertPinAuthorized | src/services/auth/pinLockout.service.ts:136-166 | the transfer gate: no format check, and calm exactly the figures of the gate for the row it finds |
| PinService.Pins.VerifyPin | src/services/auth/auth.service.ts:298-321 | 400 exactly for a malformed PIN, an error only where a statement threw; calm, reply and row exactly as GateReply and GateRow |
| PinService.Pins.ChangePinOf | src/services/auth/auth.service.ts:323-340 | 400 exactly for a malformed new PIN; calm, the new PIN is stored exactly on the passing path and the row is GateRow |
| VerificationCodes.BudgetHolds | src/services/auth/verificationCodeStore.ts:71-102 | per issued code, in every run: one verified at most, at most max counted failures, at most max - 1 beside a verified, the max-th removes the record, only wrong codes are counted, and the stored count is the number counted |
| VerificationCodes.VerifiedMatches | src/services/auth/verificationCodeStore.ts:187-206 | verified exactly when the call consumed one issued record whose code has the same hash |
| VerificationCodes.VerifiedAtConsumption | src/services/auth/verificationCodeStore.ts:71-79 | the step that answers verified found a live record with the submitted code's hash and emptied the key |
| VerificationCodes.ReadDecides | src/services/auth/verificationCodeStore.ts:150-207 | in every run what a call found when it read decides what it can come to: nothing there or unreadable, no code; expired, told so whatever the code; else by the hash |
| VerificationCodes.ExpiryComesFirst | src/services/auth/verificationCodeStore.ts:181-203 | in every run a call is told its code has expired exactly when the record it read had, unless it fails, and a failure is counted only by a call that read another code's record before its expiry |
| VerificationCodes.VerifiedReadInTime | src/services/auth/verificationCodeStore.ts:181-206 | a verified call read a record of its code before that record expired |
| VerificationCodes.ConsumedAfterExpiry | src/services/auth/verificationCodeStore.ts:205-206 | a run in which the consumption comes after the expiry |
| VerificationCodes.RecordLeavesIff | src/services/auth/verificationCodeStore.ts:162-206 | exactly which steps take a live record away |
| VerificationCodes.GoneStays | src/services/auth/verificationCodeStore.ts:71-102 | an issue that left the key is never counted against or consumed again |
| VerificationCodes.ExpiredRequestDropsNewCode | src/services/auth/verificationCodeStore.ts:181-185 | a concrete run in which the delete of an expired record removes a fresh code |
| VerificationCodes.BudgetIsExact | src/services/auth/verificationCodeStore.ts:86-102 | alone, fewer than max wrong guesses leave the right code good and max leave no code |
| VerificationCodes.AloneIsARun | src/services/auth/verificationCodeStore.ts:150-207 | a verification with nothing else running is a run of the machine, so the budget results are about it |
| VerificationCodes.WrongGuessesAlone | src/services/auth/verificationCodeStore.ts:187-203 | the answer to each of n wrong guesses, and the record after them |
| VerificationService.CodeStore.ConsumeScript | src/services/auth/verificationCodeStore.ts:71-79 | 1 exactly for a live record with the hash, which is then gone |
| VerificationService.CodeStore.FailureScript | src/services/auth/verificationCodeStore.ts:86-102 | counts one failure keeping hash, expiry and identity, retention within half a second, or removes the record when the budget is spent |
| VerificationService.CodeStore.CreateVerificationCode | src/services/auth/verificationCodeStore.ts:124-136 | replaces the record; the expiry is taken from the clock before the write |
| VerificationService.CodeStore.VerifyVerificationCode | src/services/auth/verificationCodeStore.ts:150-207 | under any interference a run that keeps the invariant, 400 exactly for a malformed code, and the answer the value read allows (expired exactly when it was); with none, the exact answer and remainder for each kind of value |
| VerificationService.CodeStore.Settle | src/services/auth/verificationCodeStore.ts:181-206 | the last statement of each branch and its answer |
| Money.ParserMeaning | src/utils/money.ts:62-64 | base units are whole x 10^d plus the padded fraction, surplus zeros dropped |
| Money.ParserDomain | src/utils/money.ts:55-64 | an amount converts to n exactly when it is a plain decimal whose value, its point moved by d, is the whole number n |
| Money.ConversionIsExact | src/utils/money.ts:55-64 | base units are the rational number denoted, its point moved by d, with no rounding |
| Money.ParseAfterPrint | src/utils/money.ts:62-79 | printing and parsing gives back every amount at every scale |
| Money.PrintAfterParse | src/utils/money.ts:66-79 | parsing and printing gives the canonical spelling |
| Money.CanonicalShape | src/utils/money.ts:66-76 | canonical spellings carry no redundant digit and are fixed points |
| Money.IsAtLeastIsExact | src/services/transaction/externalTransfer.service.ts:419-429 | decides numeric order exactly, and is false when an amount is no whole number of base units |
| Money.NormalizeDecidesEquality | src/services/transaction/transaction.service.ts:9-14 | equal normal forms exactly for equal base units and equally many redundant leading zeros |
| Money.LeadingZerosNormalizeApart | src/services/transaction/transaction.service.ts:9-14 | one more leading zero converts alike and normalizes apart, for every plain decimal |
| Money.NormalizeTrims | src/services/transaction/transaction.service.ts:9-14 | white space around an amount is dropped |
| Money.MoneyStringRange | src/utils/money.ts:115-147 | among amounts that convert at d places the schema accepts exactly those with few enough places that convert to 1 .. 10^(digits + d) - 1 |
| Money.LedgerAmountsIff | src/utils/money.ts:94-147 | on every string: accepted exactly for a plain decimal of at most 18 places, positive and below 10^18 |
| Money.LedgerAmountsConvert | src/utils/money.ts:94-101 | every accepted amount converts to a positive value below 10^(18+d), below 2^256 |
| DecimalColumn.TinyMeaning | src/utils/money.ts:94-101 | the digit test for exponent notation is 0 < value < 10^-6 |
| DecimalColumn.TinyReadBack | src/services/transaction/externalTransfer.service.ts:366-367 | an amount below 10^-6 is read back as the same number in exponent form |
| DecimalColumn.ReadBackConverts | src/services/transaction/externalTransfer.service.ts:366-367 | a stored amount converts as it was typed at every scale, unless it is below 10^-6; then at none |
| DecimalColumn.StoredMatchesIff | src/services/transaction/transaction.service.ts:206-215 | a typed amount matches a stored one exactly when they are one number, the typed one is unpadded and the stored one is not below 10^-6 |
| Spl.WriteU64LE | src/chains/solana/spl.ts:114-120 | range errors leave the buffer alone; otherwise the eight bytes are the little-endian value and the rest is unchanged |
| Spl.CreateTransferInstruction | src/chains/solana/spl.ts:155-199 | refusals in order; otherwise ten bytes that decode to tag 12, the amount and the decimals, with the accounts in their positions |
| Spl.DecodeIffEncoded | src/chains/solana/spl.ts:173-185 | data decodes to an amount and decimals exactly when it is their encoding |
| Spl.EncodingInjective | src/chains/solana/spl.ts:173-185 | different amounts or decimals have different bytes |
| Spl.BalanceReadInvertsWrite | src/chains/solana/spl.ts:268-276 | reading offset 64 inverts writing it, in both directions |
| Spl.BalanceBytes | src/chains/solana/spl.ts:268-276 | the balance is the little-endian number in bytes 64 to 71 of an account of at least 165 bytes |
| Spl.PipelineExact | src/chains/solana/spl.ts:151-199 | the wire bytes of a display amount print as its canonical spelling |
| Spl.PipelineInjective | src/chains/solana/spl.ts:151-199 | two display amounts share wire bytes exactly when they are one number at one scale |
| Evm.VerifierAcceptsIffEffectIsDemand | src/services/transaction/externalTransfer.service.ts:345-411 | accepted exactly when the transaction's one movement is what the intent asks for, or the intent's asset is refused by resolveAsset and the transaction is the native payment of its amount |
| Evm.TokenRejections | src/services/transaction/externalTransfer.service.ts:366-399 | for a token, each rejection exactly when its check is the first to fail |
| Evm.NativeRejections | src/services/transaction/externalTransfer.service.ts:345-411 | each rejection of a native payment, and of what is decided before the asset matters, exactly when its check is the first to fail |
| Evm.AcceptedIntentsAgree | src/services/transaction/externalTransfer.service.ts:345-411 | intents accepting one transaction are held to one movement, and ask for one where both ask for any |
| Evm.DroppedTokenPaidNatively | src/services/transaction/externalTransfer.service.ts:366-399 | a token dropped between prepare and submit: the same figure in the native asset is accepted |
| Evm.TokenAcceptanceReadsOnePrefix | src/services/transaction/externalTransfer.service.ts:369-396 | a token payment is accepted exactly when contract, value and the first 68 bytes of data match |
| Evm.TrailingBytesAccepted | src/services/transaction/externalTransfer.service.ts:381-396 | the built plan with any bytes appended to its call data is accepted |
| Evm.SignedPlanAccepted | src/chains/evm.adapter.ts:104-139 | signing exactly the plan built for a typed amount is accepted for the stored intent, unless the amount is below 10^-6; then it is rejected |
| Evm.NativePaymentAcceptedIff | src/services/transaction/externalTransfer.service.ts:399-411 | a native payment of the typed amount passes exactly when the amount is not below 10^-6 |
| Evm.PlanExistsIff | src/chains/evm.adapter.ts:104-120 | a plan exists exactly for a well-formed recipient and an amount converting below 2^256 |
| Evm.PlanRefusals | src/chains/evm.adapter.ts:104-120 | why a plan is refused: the chain id before the recipient, and that before the amount |
| Evm.LedgerAmountsBuild | src/chains/evm.adapter.ts:117-120 | every ledger amount within the token's places builds |
| Evm.DecodeIffPrefix | src/services/transaction/externalTransfer.service.ts:381-389 | call data decodes to a payee and amount exactly when it starts with their encoding |
| Evm.CallLayout | src/chains/evm.adapter.ts:104-139 | the call data byte by byte: selector a9059cbb, payee and amount as big-endian words |
| Evm.BoundElsewhereUnreachable | src/chains/evm.adapter.ts:68-94 | the adapter's own chain-id check never fires |
| Evm.TokenForIsScan | src/chains/evm.adapter.ts:68-94 | the adapter finds the last override, else seed, for the symbol under its own chain id |
| Evm.DeploymentIsValid | src/chains/tokens/registry.ts:175-284 | every deployment whose overrides passed the entry check resolves only to tokens with a well-formed address on the chain id in effect, so the results about valid configurations hold for it |
| Evm.ResolvedTokenBound | src/chains/tokens/registry.ts:277-284 | a resolved token has a well-formed address and the chain id in effect |
| Evm.PreparedKindIsVerifiedKind | src/services/transaction/externalTransfer.service.ts:207-217 | what prepare resolved as a token is verified as that token, the native asset as native, and a refused asset as native too |
| Evm.NativeAssets | src/services/transaction/externalTransfer.service.ts:207-217 | with no token of the name: native for exactly eight pairs of chain and asset, 400 for any other |
| Registry.ListingWellFormed | src/chains/tokens/registry.ts:233-258 | sorted, one entry per symbol, every entry bound to the chain id asked for |
| Registry.ResolveIsLastEntryWins | src/chains/tokens/registry.ts:254-304 | lookup in the sorted map equals scanning overrides then seeds from the end; requireToken answers 400 exactly when nothing is found |
| Registry.OneMoreOverride | src/chains/tokens/registry.ts:225-284 | one more override answers for its symbol, unverified and in any case, on the networks it names, and changes no other lookup |
| Registry.SeedTable | src/chains/tokens/registry.ts:60-150 | without overrides exactly nine symbols resolve under their chain ids, with 18 decimals on BSC and 6 elsewhere |
| Registry.DefaultNetworks | src/chains/chain.network.ts:25-39 | the chain id of each network when the environment names none, and when it does |
| Registry.EntryKept | src/chains/tokens/registry.ts:175-218 | an entry is kept, field by field, exactly when it has chain, symbol, decimals and a well-formed address |
| Registry.EntriesKept | src/chains/tokens/registry.ts:175-218 | each entry is judged alone, in its place |
| Registry.TokenRegistry.LoadOverrides | src/chains/tokens/registry.ts:175-218 | the answer is the valid entries of the configuration, cached or not, with a chain id that is absent, an integer, or equal to none |
| Registry.TokenRegistry.ListTokens | src/chains/tokens/registry.ts:233-258 | the map-filling loop computes the listing |
| Registry.TokenRegistry.ResetTokenOverrides | src/chains/tokens/registry.ts:221-223 | forgets the cache |
| Ramp.StatusWasSaid | src/services/ramp/ramp.service.ts:237-393 | in any mix of handlers a row ends where it started, at the status of a signed webhook or a report for it, or FAILED after a 404 |
| Ramp.RankNeverFalls | src/services/ramp/ramp.service.ts:46-56 | in any mix of handlers the rank never falls, COMPLETED rows stay as they are, only a webhook leaves FAILED, and event rows are kept |
| Ramp.WebhooksReachHighest | src/services/ramp/ramp.service.ts:297-320 | webhooks alone end at the maximum of the start and the first arrivals |
| Ramp.OrderDoesNotMatter | src/services/ramp/ramp.service.ts:230-271 | reordering and redelivery keep the final status when every event id is consistent |
| Ramp.OrderIrrelevantIff | src/services/ramp/ramp.service.ts:230-271 | all orders and redeliveries agree exactly when nothing outranks the start or some unrecorded id is sure to reach the top rank |
| Ramp.ReusedEventIdBreaksOrder | src/services/ramp/providers/yellowcard.provider.ts:322-333 | two signed statuses under one id: the first arrival decides where the row ends |
| Ramp.EventCountsOnce | src/services/ramp/ramp.service.ts:230-271 | later arrivals of an id are duplicates, and the row never ends below an event that was applied or stale |
| Ramp.EventsRecorded | src/services/ramp/ramp.service.ts:245-271 | an event is on record exactly when it was before or arrived with a reference |
| Ramp.LateReconcileLowersIff | src/services/ramp/ramp.service.ts:348-387 | a reconciliation overtaken by any mix of webhooks and reconciliations lowers the status exactly when one of them can take the row above its target |
| Ramp.LateWebhookLowersIff | src/services/ramp/ramp.service.ts:273-321 | a webhook overtaken by any mix of handlers lowers the status exactly when it writes and one of them can take the row above it |
| Ramp.MixRisesAboveIff | src/services/ramp/ramp.service.ts:273-387 | any mix of handlers leaves a row above a status exactly when it started above it or some handler offered as much |
| Ramp.LateWritesInTime | src/services/ramp/ramp.service.ts:273-387 | with nobody in between, the late writes are those of the handlers |
| Ramp.CompletedRowWalkedBack | src/services/ramp/ramp.service.ts:381-387 | a completed row ends FAILED when a 404 is written late |
| Ramp.RampService.HandleWebhook | src/services/ramp/ramp.service.ts:237-341 | each refusal exactly under its condition, the event recorded once and processed unless its signature failed for a known row, and an applied one moves the row field by field |
| Ramp.RampService.ReconcileRow | src/services/ramp/ramp.service.ts:348-393 | a report moves an open row to exactly its status when that is above, a 404 fails an open row and is answered with the old status, nothing else changes the row; the reply names the status the row then has |
| Ramp.RampService.InsertEvent | src/services/ramp/ramp.service.ts:250-271 | the unique insert on provider and event id |
| Jwt.VerifyMeaning | src/config/jwt.ts:78-106 | accepted exactly for an honoured key, a subject and an unexpired token; expired exactly for an honoured key past expiry |
| Jwt.RotationLogsNobodyOut | README.md:213-262 | in every rotation history that follows the procedure each issued token is accepted exactly until its expiry, and after the retire time only the current key's tokens are |
| Jwt.SafeRetireTimeIff | src/config/jwt.ts:33-39 | the exact bound on the retire time of one rotation, whole seconds included |
| Jwt.ForgottenWindowHonoursOnlyCurrent | src/config/jwt.ts:17-21 | an unset, unreadable or past retire time leaves only the current key |
| Jwt.IssuedStays | src/config/jwt.ts:61-76 | issued tokens stay on record, so the rotation theorem covers all of them |

## Left out

- Network, RPC and provider clients, e-mail, WebSocket fan-out, logging and error reporting: their answers are arbitrary inputs to steps.
- Cryptography: PIN hashes are compared as the PINs themselves, code hashes are an arbitrary function, a token carries the name of its signing key, and transaction decoding is an arbitrary function to a decoded record.
- `prepare`: only `resolveAsset`, `isAtLeast` and the plan it builds are modelled; fee and gas estimates are not.
- The `Decimal(36, 18)` column itself is its `toString()`: canonical, or exponent notation below 10^-6; rounding never occurs within the schema's digits.
- Money.ToBaseUnits: refuses a sign and a bare point, as its own comment at `src/utils/money.ts:58` promises and the schema ensures, where the library tolerates them; the library's limits of 80 places and 512 bits are not modelled.
- Money.IsAtLeastIsExact: false for a signed amount or one with a bare point, which never reach it.
- The interactive transaction and `SELECT ... FOR UPDATE` in `send` are not modelled beyond its unique insert.
- TransferTheorems.OneRowPerKey: claims that replies name the row with the key; what else they match is `TransferReplies.SendRepliesMatch`.
- TransferTheorems.RowHandedOverOnce: a submitted row that some `broadcast` call names is not covered, since both paths may then enqueue it.
- A queue insertion that fails after it took effect is not modelled; a step that throws has no effect.
- Retries by the queue: each job runs once, as the `add` calls ask.
- Account deletion, and rows removed under a job, are not modelled.
- Code records of another shape than this store's: text that is not JSON and JSON without a hash are, a record with a hash and no expiry is not.
- Ramp `deposit` and `withdraw`: the rows they create are the starting state, and their own status writes are not modelled.
- Ramp.RankNeverFalls: a handler is one step; what overlapping does is `LateReconcileLowersIff` and `LateWebhookLowersIff`, for one late handler against any others.
- A webhook handler that stops between recording its event and moving the row is not modelled; a redelivery is then a duplicate.
- Ramp timestamps (`lastSyncedAt`, `processedAt` as a time) are not modelled; `processedAt` is a flag.
- `localeCompare` is a parameter of the registry, any total preorder.
- Token decimals other than integers do not exist in the model, as the entry check excludes them.
- `sessionExpiry` and the session table, and token claims other than subject and expiry.
- Controllers, routes, rate limits, contacts, payment requests, wallet registration, health checks and the non-EVM chains' signing.
