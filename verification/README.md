# Confidential Polymesh REST API: affirmation, tracking, codec and execution

This project models the four parts of the REST API that hold real logic, and proves what they
guarantee for every input, every completion order and every interleaving.

* **Confidential legs** (`ProofServer`, `LegVerification`, `LegTheorems`, `SenderAffirmation`). A sender
  affirms a leg with one proof per amount; a receiver or auditor decrypts every proof, compares it with
  the amounts it expects, and affirms only if everything agrees. The proof server is an ideal oracle: a
  proof binds the amount, the receiver and the ordered auditors, and a verification is valid when the
  key stands where it claims and the given amount is absent or equal. The chain reports the submitted
  proofs beside the leg's own auditor lists. `CompleteRequests` picks any outstanding verification to
  finish next, so its contract covers every completion order; failing proof-server calls are an input.
* **The webhook transaction tracker** (`TransactionPayloads`, `TransactionTracker`, `TrackerInvariant`,
  `TrackerHistory`, `TrackerTheorems`, `TransactionsServices`). Each action of a state machine is one segment between two
  awaits, or a step of the SDK or another service; the invariant and the theorems range over all runs.
  The class has the service's two fields and its methods, cut at their awaits. Every method that ends at
  an await takes one action and keeps `Valid`: the fields are the state that the object's recorded
  history leads to, so the theorems hold of every object (`StoreAgrees`). `AddListener`, `NotifyEarly` and
  `HandleTransactionStatusChange` are the synchronous pieces inside those methods. SDK listeners,
  subscriptions, events and the calls waiting on them are the `World`. `Given`, `Latest` and `Registrations`
  read what happened off the actions of a run alone, and the theorems compare the state with them.
  `createdFor` in `Subscription` and `seen` in `Handler` are history: no decision reads them.
* **The proof-server codec** (`KeyCase`, `ProofCodec`). Objects are ordered fields; `mapKeys` merges fields
  whose keys meet, as lodash does.
* **Gathering and execution** (`MoveFunds`, `SdkErrors`, `PromiseFlow`, `SubmitPath`). Nested `Promise.all`
  slots filled in any order with any failures, and the submit path with its nested catches. `PromiseFlow`
  evaluates async control flow (awaits, `Promise.all`, catches, promises returned without an await); the
  methods of `SubmitPath` are proved to follow such programs, and what is mapped or escapes is computed.

Main results: `LegTheorems.ExactIffDistinctAndOpen` (the length and one-directional inclusion checks accept
exactly the permutations of the proved amounts if and only if no asset repeats and the key opens every
proof, with a counterexample for every leg that repeats an asset), `SenderAffirmation.EndToEnd` and
`EndToEndExact`, `LegVerification.VerifyTransactionAmounts`, `TrackerHistory.NotificationsHandled`,
`TrackerTheorems.StoreSafety`, `CleanupExact`, `TerminalResume`, `ScopeIsolation`, `NonceReserved`,
`OneEventEach` and `StrandedExact`, `ProofCodec.RoundTripExact` and `PathsKept`,
`MoveFunds.OneSubmitUnlessFailed` and `SubmissionMoves`, and `SubmitPath.SubmitTransaction`.

## What the proofs bring out about the code

* A leg in which an asset occurs twice defeats the checks of `verifyAndAffirmLeg`: either the true amounts are turned
  down or a list with a wrong amount is accepted (`DuplicateAssetCounterexample`). Distinct assets and an
  entitled key are the exact condition for the permutation property, for any proved leg
  (`ExactIffDistinctAndOpen`) and after a sender's affirmation (`EndToEndExact`).
* `assemblePayload` throws when a status calls for a block number or an error the transaction does not
  have. Such a notification makes no createEvent call, and a terminal one then cleans nothing up. A
  comment at line 283 of `src/transactions/transactions.service.ts` says these fields are always there;
  the model follows the code. "Every notification makes one createEvent call" holds of an id exactly when
  each of its notifications is `Assemblable` (`OneEventEach`), every cleanup came from one that is
  (`CleanupNeedsPayload`), and `LostFailureLeaks` is a run in which a failed transaction stays stored.
* If creating or updating the subscription fails, the transaction's entry and listener stay in memory for
  ever exactly when no terminal status is being reported (`StrandedExact`); `StrandedRun` is such a run.
* The comment on `transactionStore` speaks of recycling indexes; the code never reuses an id
  (`IdsIncrease`, `IdsNeverReused`).
* A rejected `submit` may still have run the transaction: fees and `run()` start together, so
  `ShouldRun` does not depend on the fees.
* `submit` returns its three promises without awaiting them, so its own catch sees only a failed first
  preparation. Submit, dry-run and offline errors are mapped by `processTransaction`'s catch; errors of the
  callback and AMQP branches and of the signing-account lookup reach the caller unmapped.
* In `AuditorVerifySenderProofDto` a null amount is said to match nothing; the services use null for "no
  amount to compare with", and so does the model. The inclusion check in `verifyAndAffirmLeg` is what turns
  an amount that was never given into a rejection.
* The codec's keys need later words of at least two letters on both sides: `a_b_c` becomes `aBC`, which
  lodash splits into `a` and `BC`.

## Model

| member | source | states |
|---|---|---|
| `LegVerification.AuditorIndex` | src/confidential-transactions/confidential-transactions.service.ts:281-285 | the auditor position is the key's least index, and is found exactly when the key is listed |
| `LegVerification.ExpectedAmount` | src/confidential-transactions/confidential-transactions.service.ts:263-271 | the amount compared with is the first one given for the asset, and null exactly when none was given |
| `LegVerification.ResultReports` | src/confidential-transactions/confidential-transactions.service.ts:289-364 | the reported flags, leg, asset, decrypted amount, validity and error of a proof are those of the asking key: receiver, auditor, the bound amount if the key opens the proof, and nothing for a proof that is not the key's |
| `LegVerification.RequestCountMeaning` | src/confidential-transactions/confidential-transactions.service.ts:289-318 | there is one verification request for each proof the key receives or audits |
| `LegVerification.ClassifyProofs` | src/confidential-transactions/confidential-transactions.service.ts:259-333 | proofs the key cannot open are answered at once and one request is made for each other proof; answers and requests together are one report for each proof, pinned field by field by `Reports` |
| `LegVerification.CompleteRequests` | src/confidential-transactions/confidential-transactions.service.ts:335-375 | whatever the completion order, every request's answer is added to the results once; it rejects exactly when some request fails |
| `LegVerification.DecryptLeg` | src/confidential-transactions/confidential-transactions.service.ts:254-375 | for every completion order the results are a permutation of one report per asset proof, as `Reports` describes it; it rejects exactly when some request fails |
| `LegVerification.VerdictOrderIndependent` | src/confidential-transactions/confidential-transactions.service.ts:397-429 | the decision and the kind of error depend only on the multiset of results |
| `LegVerification.ProvedLeg` | src/confidential-transactions/confidential-transactions.service.ts:389-393 | the leg taken is the first proved one with the id, and none exactly when no proved leg has it |
| `LegVerification.VerifyAndAffirmLeg` | src/confidential-transactions/confidential-transactions.service.ts:377-432 | in every completion order the outcome is the order-free verdict on the proved leg: not proven, proof server failure, the failed check, or an affirmation of that leg and party |
| `LegVerification.AmountsForLeg` | src/confidential-transactions/confidential-transactions.service.ts:243 | the amounts given for a leg are those of the first entry with its id, and none exactly when no list is given or no entry has that id |
| `LegVerification.ListUnproven` | src/confidential-transactions/confidential-transactions.service.ts:216-239 | pending legs give one entry per asset, in leg and proof order, that only says who asks |
| `LegVerification.DecryptLegs` | src/confidential-transactions/confidential-transactions.service.ts:241-249 | the flattened results are a permutation of one report per proof of every proved leg, each leg compared with its own expected amounts; it rejects exactly when some leg's request fails |
| `LegVerification.VerifyTransactionAmounts` | src/confidential-transactions/confidential-transactions.service.ts:207-252 | the output is a permutation of one report per leg and asset proof, each proved leg compared with the amounts of its first entry, sorted by leg id; for each leg id the pending entries come first and in proof order; whichever stable sort is used gives this output |
| `Sequences.StableSortCorrect` | src/confidential-transactions/confidential-transactions.service.ts:249-251 | the sort used is a stable sort by leg id and a permutation |
| `Sequences.StableSortDetermined` | src/confidential-transactions/confidential-transactions.service.ts:249-251 | a sequence is a stable sort by leg id exactly if it is the result of the sort used |
| `Sequences.StableSortUnique` | src/confidential-transactions/confidential-transactions.service.ts:249-251 | sorted sequences with the same equal-key classes are equal, so the result does not depend on the sorting algorithm |
| `Sequences.Pigeonhole` | src/confidential-transactions/confidential-transactions.service.ts:409-429 | distinct elements that all occur in a sequence of the same length are a permutation of it |
| `LegTheorems.ResultValid` | src/confidential-transactions/confidential-transactions.service.ts:289-332 | a result counts as valid exactly when the key opens the proof and the given amount is absent or the bound one; a valid result was decrypted |
| `LegTheorems.VerdictMeaning` | src/confidential-transactions/confidential-transactions.service.ts:395-429 | which of the three checks turns a leg down, and with which counts, is decided by the leg's proofs: a refuted proof, then differing counts, then an asset without an expected amount |
| `LegTheorems.AcceptsMeaning` | src/confidential-transactions/confidential-transactions.service.ts:395-429 | the checks pass exactly when the key opens every proof, the counts agree and every proof's first expected amount is the amount it binds |
| `LegTheorems.AcceptanceIsSound` | src/confidential-transactions/confidential-transactions.service.ts:263-271 | with distinct assets, passing the checks means every proof was decrypted against a non-null equal amount, and the expected list is duplicate-free and a permutation of the proved amounts |
| `LegTheorems.AcceptanceIsComplete` | src/confidential-transactions/confidential-transactions.service.ts:395-431 | with distinct assets and a key that opens every proof, every permutation of the proved amounts is accepted |
| `LegTheorems.ExactIffDistinctAndOpen` | src/confidential-transactions/confidential-transactions.service.ts:395-431 | acceptance coincides with being a permutation of the proved amounts, for all lists, if and only if the key opens every proof and no asset repeats |
| `LegTheorems.DuplicateAssetCounterexample` | src/confidential-transactions/confidential-transactions.service.ts:264-270 | any repeated asset yields a list on which the check and the permutation property disagree |
| `SenderAffirmation.AssetAuditorOf` | src/confidential-transactions/confidential-transactions.service.ts:131-137 | the leg's first entry for the asset is taken, and none exactly when the leg does not list it |
| `SenderAffirmation.SenderAffirmLeg` | src/confidential-transactions/confidential-transactions.service.ts:104-164 | submission is reached only for a leg in range that lists every requested asset; each proof then binds the requested amount, the receiver, the auditors the leg first lists for the asset and the sender's balance, position by position; otherwise the first obstruction decides the error |
| `SenderAffirmation.OwnSlot` | src/confidential-transactions/confidential-transactions.service.ts:280-310 | on an affirmed leg a key opens every proof exactly when it is the receiver or audits every listed asset |
| `SenderAffirmation.EndToEnd` | src/confidential-transactions/confidential-transactions.service.ts:104-432 | after the sender has affirmed distinct assets, verification accepts exactly for an entitled key and a permutation of the sender's amounts |
| `SenderAffirmation.EndToEndExact` | src/confidential-transactions/confidential-transactions.service.ts:104-432 | after the sender's affirmation, acceptance coincides with being a permutation of the sender's amounts, for all lists, if and only if the key is entitled and no asset was sent twice |
| `SenderAffirmation.AffirmThenVerify` | src/confidential-transactions/confidential-transactions.service.ts:104-432 | the two operations run in sequence, among other proved legs and in any completion order, submit the affirmation exactly in those cases unless the proof server fails |
| `Decimals.ParseDecimal` | src/transactions/transactions.service.ts:126 | parsing a printed id gives the id back |
| `Decimals.DecimalInjective` | src/transactions/transactions.service.ts:126 | different ids print as different event scopes |
| `TransactionPayloads.AssemblePayload` | src/transactions/transactions.service.ts:250-308 | the payload built step by step has the fields its status calls for, with the transaction's own contents, and assembling throws exactly when a required block number or error is missing |
| `TransactionPayloads.PayloadDescribes` | src/transactions/transactions.service.ts:250-308 | the payload events and responses carry is described field by field, status by status |
| `TrackerInvariant.NotifiedAllExtends` | src/transactions/transactions.service.ts:185-199 | synchronous notifications add exactly one handler each, in order, with that snapshot and its status, and one event for each assemblable one; they leave the transaction as last shown and change nothing else |
| `TrackerInvariant.RegisterKeepsInv` | src/transactions/transactions.service.ts:161-178 | registering a listener keeps the invariant, even when the SDK calls back during registration |
| `TrackerInvariant.RemovalHandlers` | src/transactions/transactions.service.ts:210-214 | removing an entry keeps the account that every missing entry was removed by exactly one terminal handler |
| `TrackerInvariant.FindAllExact` | src/transactions/transactions.service.ts:235-240 | the lookup returns exactly the active, unexpired subscriptions created for the transaction |
| `TrackerInvariant.StepKeepsInv` | src/transactions/transactions.service.ts:119-243 | every atomic segment and every outside step keeps the invariant |
| `TrackerInvariant.RunInv` | src/transactions/transactions.service.ts:119-243 | every reachable state satisfies the invariant |
| `TrackerHistory.EventHistory` | src/transactions/transactions.service.ts:193-209 | a handler's stage records exactly whether its createEvent succeeded during the run |
| `TrackerHistory.IdsCountRegistrations` | src/transactions/transactions.service.ts:164-165 | the n-th registration takes id n |
| `TrackerHistory.NotificationsHandled` | src/transactions/transactions.service.ts:166-188 | the handlers of a run are exactly its notifications: each one given, early ones included, is handled once, in order, with the snapshot it showed |
| `TrackerHistory.TransactionsAreLatest` | src/transactions/transactions.service.ts:119-199 | the transaction object is what the actions last showed of it |
| `TrackerTheorems.StoreSafety` | src/transactions/transactions.service.ts:161-224 | after any run an id is stored exactly when registered and not unsubscribed, its listener is in place exactly then, no unsubCallback runs twice, and one handler at most cleans up an id |
| `TrackerTheorems.CleanupExact` | src/transactions/transactions.service.ts:193-216 | a registered id has been removed if and only if some notification given in the run showed it in a final status and had its createEvent succeed |
| `TrackerTheorems.TerminalResume` | src/transactions/transactions.service.ts:201-223 | the first terminal handler to resume finds its entry and removes exactly that id; any later one changes nothing but its own ending in the logged catch |
| `TrackerTheorems.IdsIncrease` | src/transactions/transactions.service.ts:164-165 | ids strictly increase over a run |
| `TrackerTheorems.IdsNeverReused` | src/transactions/transactions.service.ts:164-165 | no call, entry, handler, unsubscription or subscription has carried the id a registration takes |
| `TrackerTheorems.ScopeIsolation` | src/transactions/transactions.service.ts:232-243 | marking done changes exactly the subscriptions created for the finished transaction that were active and unexpired when looked up |
| `TrackerTheorems.MarkedHistory` | src/transactions/transactions.service.ts:216-242 | a handler has finished its cleanup exactly when its batchMarkAsDone succeeded in the run |
| `TrackerTheorems.MarkedAtMostOnce` | src/transactions/transactions.service.ts:216 | over a run one transaction's subscriptions are marked done at most once |
| `TrackerTheorems.OwnersRegistered` | src/transactions/transactions.service.ts:129-139 | every subscription's transaction is registered, and its call is setting that subscription's nonce, has started with it, or was abandoned |
| `TrackerTheorems.NonceReserved` | src/transactions/transactions.service.ts:129-147 | whenever an action creates an event, registrations included, every subscription to the event's scope has nextNonce at least 1; outside a registration the call's own subscription is there |
| `TrackerTheorems.ResponsesReserved` | src/transactions/transactions.service.ts:149-155 | the initial response carries nonce 0 for the call's own subscription and scope |
| `TrackerTheorems.ResponseShown` | src/transactions/transactions.service.ts:149-155 | the initial response is given exactly when its payload can be assembled, and shows the transaction as last seen when the run had started |
| `TrackerTheorems.EventsInOrder` | src/transactions/transactions.service.ts:185-199 | per scope, the createEvent calls are those of the notifications given for its id, in order, each with the status its handler saved |
| `TrackerTheorems.OneEventEach` | src/transactions/transactions.service.ts:185-199 | an id has as many createEvent calls as notifications were given for it if and only if the payload of each of them could be assembled |
| `TrackerTheorems.CleanupNeedsPayload` | src/transactions/transactions.service.ts:190-211 | a terminal notification that leads to a cleanup had a payload that could be assembled |
| `TrackerTheorems.LostFailureLeaks` | src/transactions/transactions.service.ts:281-295 | in the run where a transaction fails without a block number, the failure is notified, no event is created and the entry stays |
| `TrackerTheorems.SavedStatusKept` | src/transactions/transactions.service.ts:186-209 | the status a handler saved when it was called stays the same for the rest of the run, whatever the SDK mutates |
| `TrackerTheorems.MutationCommutes` | src/transactions/transactions.service.ts:186-209 | mutating the transaction during the await does not change what the handler decides |
| `TrackerTheorems.CallHistory` | src/transactions/transactions.service.ts:119-147 | a call is abandoned exactly when creating or updating its subscription failed, and has started exactly when its nonce was set |
| `TrackerTheorems.StrandedForever` | src/transactions/transactions.service.ts:125-139 | after a failed subscription call with no terminal handler in flight, the entry stays in every continuation |
| `TrackerTheorems.StrandedExact` | src/transactions/transactions.service.ts:125-139 | after a failed subscription call, entry and listener stay in every continuation if and only if no terminal handler is in flight |
| `TrackerTheorems.StrandedRun` | src/transactions/transactions.service.ts:125-134 | registering and a failing createSubscription leave the entry and listener in place whatever follows |
| `TransactionsServices.TransactionsService.StoreAgrees` | src/transactions/transactions.service.ts:39-57 | at any time of any object, an id is stored exactly when registered and not unsubscribed, its listener is in place exactly then, no unsubCallback has run twice, and a registered id is gone exactly after a successful terminal event |
| `TransactionsServices.TransactionsService.constructor` | src/transactions/transactions.service.ts:39-57 | the service starts empty, with no history |
| `TransactionsServices.TransactionsService.SubmitAndSubscribe` | src/transactions/transactions.service.ts:119-134 | the segment up to createSubscription takes the registration action, handles exactly the early notifications, and nothing has carried the id before |
| `TransactionsServices.TransactionsService.AddListener` | src/transactions/transactions.service.ts:161-178 | the next id is taken, early callbacks are handled, and the entry stored under that id names its own listener |
| `TransactionsServices.TransactionsService.ResumeCreateSubscription` | src/transactions/transactions.service.ts:129-139 | a settled createSubscription takes the matching action; on success the new subscription is the only one to the id's scope, and the one a lookup finds |
| `TransactionsServices.TransactionsService.ResumeUpdateSubscription` | src/transactions/transactions.service.ts:137-155 | a settled updateSubscription takes the action that runs and answers, or abandons; when the run starts, its early notifications are handled and nonce 0 is taken in every subscription to the id's scope |
| `TransactionsServices.TransactionsService.OnStatusChange` | src/transactions/transactions.service.ts:166-169 | a status change of a running transaction takes the notification action, is handled once, and its event can only be delivered from nonce 1 on |
| `TransactionsServices.TransactionsService.HandleTransactionStatusChange` | src/transactions/transactions.service.ts:185-199 | every call adds one handler with the snapshot and its status, and one createEvent call if the payload can be assembled |
| `TransactionsServices.TransactionsService.ResumeCreateEvent` | src/transactions/transactions.service.ts:201-223 | a settled createEvent takes the matching action; the store loses exactly the id of the first terminal success, and otherwise nothing |
| `TransactionsServices.TransactionsService.ResumeFindAll` | src/transactions/transactions.service.ts:232-243 | a settled findAll takes the matching action; what is about to be marked are the active, unexpired subscriptions created for the transaction |
| `TransactionsServices.TransactionsService.ResumeBatchMarkAsDone` | src/transactions/transactions.service.ts:242 | a settled batchMarkAsDone takes the matching action; it changes only subscriptions of the finished transaction, to done, and no handler did so before |
| `KeyCase.KeysRoundTrip` | src/confidential-proofs/confidential-proofs.utils.ts:17-34 | on canonical keys the two case conversions stay canonical and undo each other |
| `KeyCase.LettersKept` | src/confidential-proofs/confidential-proofs.utils.ts:17 | snake case keeps every letter, in lower case, and adds only separators |
| `ProofCodec.MapKeysCount` | src/confidential-proofs/confidential-proofs.utils.ts:17-34 | renaming keys loses a field exactly when two renamed keys meet |
| `ProofCodec.MapKeysDistinct` | src/confidential-proofs/confidential-proofs.utils.ts:17-34 | a renaming that keeps the keys apart keeps every field in its place |
| `ProofCodec.MapKeysLastWins` | src/confidential-proofs/confidential-proofs.utils.ts:17-34 | a renamed field holds what the last of the fields renamed to its key held |
| `ProofCodec.SerializeThenDeserialize` | src/confidential-proofs/confidential-proofs.utils.ts:6-38 | a camel-case tree serialises to a snake-case tree and comes back with only its plain numbers changed to BigNumbers |
| `ProofCodec.DeserializeThenSerialize` | src/confidential-proofs/confidential-proofs.utils.ts:6-38 | a snake-case tree deserialises to a camel-case tree and goes back with only its BigNumbers changed to plain numbers |
| `ProofCodec.RoundTripExact` | src/confidential-proofs/confidential-proofs.utils.ts:6-38 | serialising and deserialising a camel-case tree is the identity if and only if it holds no plain number |
| `ProofCodec.WireRoundTripExact` | src/confidential-proofs/confidential-proofs.utils.ts:6-38 | deserialising and serialising a snake-case tree is the identity if and only if it holds no BigNumber |
| `ProofCodec.PathsKept` | src/confidential-proofs/confidential-proofs.utils.ts:15-19 | every path, present or absent, leads to the same place in the serialised tree under its snake-case name |
| `ProofCodec.LeavesOnTheWire` | src/confidential-proofs/confidential-proofs.utils.ts:6-22 | at every path to a leaf the wire holds the same leaf, a BigNumber as the number of the same value |
| `MoveFunds.SubmitsAligned` | src/confidential-accounts/confidential-accounts.service.ts:164-225 | in every completion order nothing is submitted before every slot is full, and the one submission then has at position i, j the proof for that asset move, with its auditors, balance and receiver |
| `MoveFunds.SubmissionMoves` | src/confidential-accounts/confidential-accounts.service.ts:164-225 | whatever is submitted has, position by position, the accounts asked for and proofs by the first account for the second, with the amount, the asset's auditors and the balance of that asset |
| `MoveFunds.RequestsWait` | src/confidential-accounts/confidential-accounts.service.ts:180-212 | a request is answered or fails once, after the accounts, the balance and asset, and the auditors it waits for have been answered |
| `MoveFunds.OneSubmitUnlessFailed` | src/confidential-accounts/confidential-accounts.service.ts:170-174 | once nothing is outstanding there was exactly one submission if no request failed; any failure rules a submission out |
| `SdkErrors.FirstMappingStands` | src/transactions/transactions.util.ts:198-241 | through any number of catches an error is mapped once, by the innermost and as the error table says, whether the mapping was returned or thrown |
| `SdkErrors.ErrorTable` | src/transactions/transactions.util.ts:198-241 | kind by kind, which thrown values become which application error with which message; application errors are unchanged, and only a missing signing account is raised |
| `PromiseFlow.MappedOnce` | src/transactions/transactions.util.ts:198-241 | in any nesting of awaits, `Promise.all`, catches and unawaited returns, an error arrives as thrown if it crossed no catch, and mapped once otherwise |
| `SubmitPath.PrepareProcedure` | src/transactions/transactions.util.ts:74-88 | a method without parameters gets the options alone, any other the arguments too; preparation fails only with the mapped error |
| `SubmitPath.ProcessTransaction` | src/transactions/transactions.util.ts:90-196 | the first fault in order is mapped once, as the error table says; an unknown kind of transaction is an internal error; the procedure runs only in submit mode, only its own preparation, and once |
| `SubmitPath.SubmitAndSubscribe` | src/transactions/transactions.service.ts:119-156 | the first prepared instance runs exactly when both subscription calls succeed; errors come out as they are |
| `SubmitPath.SubmitFaultComputed` | src/transactions/transactions.service.ts:82-112 | evaluating the control flow of `submit` gives the first fault in order, and it crosses a catch exactly when it is a failed preparation or a fault of the submit, dry-run and offline modes |
| `SubmitPath.SubmitTransaction` | src/transactions/transactions.service.ts:82-112 | the call follows its control flow; at most one prepared instance runs, exactly when `ShouldRun` says, never in dry-run, offline or AMQP mode; mapped errors are what the error table makes of the original and the others escape unchanged |

## Left out

- HTTP to the proof server, the chain, signing, AMQP, events and subscription storage: replaced by oracles, maps and outcomes chosen by the environment.
- Controllers, modules, DTO validation, Swagger and configuration: declarative.
- The remaining methods of the accounts, assets, identities and transactions services: thin wrappers around SDK calls.
- A restart of the service: `currentId` starts at 0 again while stored subscriptions persist, so scopes are isolated within one process only.
- Lookups that fail before the modelled steps (`findOne`, `getProofDetails`, the transaction model): they reject a call before it has any effect.
- Chain changes between the two lookups of `verifyAndAffirmLeg` (lines 381 and 93): the leg is taken to stay as proved.
- Log and error message texts, whose element order can depend on completion order.
- BigNumbers that are not integers, are NaN or exceed 2^53-1 in magnitude, and lodash on keys outside the stated shapes.
- Concurrency between the legs of one `verifyTransactionAmounts` call: each leg fills its own array and `Promise.all` keeps positions, so the legs are decrypted one after another here.
- A `batchMarkAsDone` that fails after marking some subscriptions: a failed call marks none here.
- Whether `createEvent` and `findAll` deliver what they store: only the calls and their success or failure are modelled.
- Cryptographic soundness of proofs.
