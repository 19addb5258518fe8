# Payments portal: models and proofs of the external-create protocol

The portal sells subscriptions that an external billing provider holds.  The provider's CREATE calls are
not idempotent, replies get lost, drivers crash while holding old snapshots, and several openers work on the
same customer at once.  This project models the code that decides when a CREATE may be sent, what its
outcome means and what is kept, and proves what that code guarantees over every run.

| files | component |
|---|---|
| `FinancialKinds`, `FinancialModel`, `FinancialRuns`, `FinancialTheorems`, `FinancialReview`, `FinancialOutcomes`, `FinancialStore` | a purchase with its AGREEMENT and SUBSCRIPTION operations, their fences, send evidence, work items, reviews and the hold of a (user, product) |
| `CustomerModel`, `CustomerRuns`, `CustomerTheorems`, `CustomerOutcomes`, `CustomerStore` | the customer create protocol: one slot per (account, user), send leases, receipts, point proof and conflict recovery |
| `PreflightModel`, `PreflightRuns`, `PreflightOutcomes`, `PreflightAdmission` | the bounded scheduler that every provider call runs under |
| `LinkModel`, `LinkRuns`, `LinkTheorems`, `LinkOutcomes`, `LinkStore` | product-link publication and first customer reservation, interleaved statement by statement under advisory locks |
| `MappingApprovals` | the approval history of a mapping |
| `Drivers`, `Interleaving`, `CustomerDrivers`, `FinancialDrivers` | the two driver loops, `ensure_customer` and `_prepare`, as traces of calls, each of them also acting in a run of its protocol among everybody else's events |
| `Dotenv`, `CanonicalDecimal`, `Manifests`, `ManifestCheck` | the encoders: runtime.env quoting, canonical decimals, the three manifest canonicalisers |

Each protocol is written twice.  A `*Model` module gives one function per database transaction (or per stretch
between two awaits); a class in a `*Store` module (and `Admission`) changes fields step by step, as the code
does, and is proved equal to those functions.  The `*Runs` modules let any number of drivers take those steps in
any order with arbitrarily old snapshots and prove an invariant; the `*Theorems` modules state what follows.
The `*Outcomes` modules say, for every reachable state and without naming the function of the transaction, exactly
when each transaction has its effect, what that effect is, and that it leaves everything alone otherwise.
In the financial runs each grant's POST takes effect at the provider at any later time or never; the only
assumption about the outside is that the typed not-sent result is truthful.

`dafny verify dfyconfig.toml` (Dafny 4.11) checks the whole project.

## What turned out not to hold

- `financial.py:300-306` says that a known mismatch needs an audited decision before it can be bound, but the
  check also asks for the intent to be in manual review, and a failed read of the sibling operation takes the
  intent out of it (235-238).  `FinancialReview.AuditCanBeSkipped` is a run that binds without the decision.
  `FinancialReview.ReviewIsLeftExactlyBySiblingRead` says which events take an intent out of review while the
  decision is pending: exactly a failed read of the sibling while that is unbound, not in review and not overdue.
  Over every run without one the promise holds (`FinancialReview.AuditHoldsWithoutDemotingRead`).
- Ending a customer attempt retires its fence only in POSSIBLE_SEND.  After an overdue review a later grant can
  rest on a snapshot taken before the attempt ended: `CustomerTheorems.LateEndGrantsOnAnOlderSnapshot`, with the
  exact condition in `CustomerTheorems.EndRefusesOldSnapshotsExactlyInPossibleSend`.  That run keeps an attempt
  open past the two-hour recovery window, against a budget of seconds, so only a process that was suspended for
  that long can act it out.
- A runtime.env value that holds U+0085, U+2028 or U+2029 is written but not read back, because the file reader
  cuts lines with `splitlines`; every other accepted value survives (`Dotenv.FileRoundTrip`).
- `publish_mapping` reports a lost commit as recovered when the row found has its material fingerprint, which
  may be another caller's row (`MappingApprovals.DroppedCommitCanBeRecovered`).  Recovered means committed exactly
  when no other caller publishes the same fingerprint: `MappingApprovals.FingerprintDecidesWithoutTwins` for each
  run, `MappingApprovals.RecoveredIsOwnExactlyWithoutTwins` in both directions.  A comparison of row ids would
  decide it always (`MappingApprovals.OwnIdDecides`), as it does in `publish_product_link`
  (`LinkTheorems.RecoveredExactlyWhenStored`).

## Model

| member | source | states |
|---|---|---|
| `FinancialTheorems.AtMostOneCreatePerScope` | apps/api/app/domains/purchases/financial.py:54-170 | over every run, with stale drivers, lost replies and late effects, at most one CREATE of each kind takes effect per (user, product), even across released and re-confirmed purchases |
| `FinancialTheorems.EveryCreateHasAScope` | apps/api/app/domains/purchases/financial.py:54-139 | every effect at the provider belongs to a stored purchase, so the bound above covers all of them |
| `FinancialTheorems.EffectIsLive` | apps/api/app/domains/purchases/financial.py:142-170 | a CREATE that took effect is the last, unreturned grant of a purchase that still holds its scope |
| `FinancialTheorems.SendLedger` | apps/api/app/domains/purchases/financial.py:69-139 | grants minus accepted not-sent results is 0 or 1 and is fixed by the state; the fence is the last grant's; attempts count the grants; all grants carry one request |
| `FinancialTheorems.OnlyNotSentReopens` | apps/api/app/domains/purchases/financial.py:213-249 | no clock advance, failed read, conflict or escalation makes an operation claimable again; only an accepted not-sent result does |
| `FinancialTheorems.GuardNeverFires` | apps/api/alembic/versions/20261029_0003_normal_billing.py:150-176 | every event from a reachable state satisfies the trigger's old/new relation and the column checks, so the trigger can never raise |
| `FinancialTheorems.EvidenceIsPermanent` | apps/api/alembic/versions/20261029_0003_normal_billing.py:158-171 | over every run identity, first-send evidence and bound id stay, and nothing returns to pending after a send |
| `FinancialTheorems.SubscriptionNeedsBoundAgreement` | apps/api/app/domains/purchases/financial.py:96-99 | in every reachable state a subscription that was granted or created rests on an agreement with a bound id: it was bound to that id before the first grant, and no later event changes it |
| `FinancialTheorems.ScopeHeldUntilReleased` | apps/api/app/domains/purchases/service.py:308-418 | a purchase holds its scope exactly until it failed before external effect, and no two purchases hold one scope |
| `FinancialTheorems.ReleasedIsFrozen` | apps/api/app/domains/purchases/service.py:445-455 | a released purchase is never changed again by any event |
| `FinancialTheorems.ReleaseProvesNothingSent` | apps/api/app/domains/purchases/financial.py:252-275 | a release happens only when every earlier grant was returned unsent, and no effect belongs to the purchase |
| `FinancialTheorems.ConfirmOnce` | apps/api/app/domains/purchases/service.py:285-305 | after a successful confirm every later confirm with the same (user, key) inserts nothing and returns that purchase, or refuses another meaning |
| `FinancialTheorems.LinkedIsProven` | apps/api/app/domains/purchases/financial.py:320-383 | LINKED means the hold, two bound operations and a local subscription that names exactly their two ids |
| `FinancialTheorems.LinkedStaysProven` | apps/api/app/domains/purchases/service.py:458-470 | on a linked purchase every event but a conflict keeps the state and the admission snapshots; a conflict that changes it opens a review |
| `FinancialTheorems.PaymentRecheckCoversTheWholeRun` | apps/api/app/domains/purchases/service.py:458-470 | a purchase found LINKED with the same admission snapshots was LINKED with them after every step in between |
| `FinancialReview.ProviderIdsAreUnique` | apps/api/app/domains/purchases/financial.py:320-383 | over every run no provider object is bound by two purchases of one account, nor named by two subscription rows |
| `FinancialReview.AuditIsEnforcedExactlyUnderReview` | apps/api/app/domains/purchases/financial.py:300-306 | in one transaction and with every other gate open, an operation with an unaudited mismatch is refused exactly while its intent is in manual review, and bound otherwise |
| `FinancialReview.AuditCanBeSkipped` | apps/api/app/domains/purchases/financial.py:235-238 | a concrete run in which the mismatch is bound without its audited decision |
| `FinancialReview.ReviewIsLeftExactlyBySiblingRead` | apps/api/app/domains/purchases/financial.py:213-243 | from a reachable state with a decision pending under review, every event keeps the decision pending and the binding as it was, and the intent leaves review if and only if the event is a failed read of the sibling operation while that is unbound, not in review and not overdue |
| `FinancialReview.AuditHoldsWithoutDemotingRead` | apps/api/app/domains/purchases/financial.py:300-306 | over every run without such a read the decision stays pending, the binding does not change, and every attempt to bind is refused |
| `FinancialRuns.StepKeeps` | apps/api/app/domains/purchases/financial.py:54-442 | every event keeps the invariant of ledgers, columns, work items, holds, keys and bindings |
| `FinancialOutcomes.InsertedExactly` | apps/api/app/domains/purchases/service.py:308-418 | in every reachable state a confirmation inserts a purchase, with its scope held, its two empty operations and their two keys, if and only if it is admitted, the scope is free and the key is new for the user; otherwise nothing changes |
| `FinancialOutcomes.GrantedExactly` | apps/api/app/domains/purchases/financial.py:54-139 | in every reachable state a claim adds a grant if and only if the caller owns the held purchase, its customer is clear, nobody reviews it, the view's fence is current, every earlier grant was returned unsent with the same request, nothing is bound or kept as a receipt, and for a subscription the agreement is bound; a grant draws a new fence and opens a recovery window of two hours from now, first evidence is written once, and any other claim changes nothing |
| `FinancialOutcomes.ReturnedExactly` | apps/api/app/domains/purchases/financial.py:142-170 | in every reachable state a not-sent result returns the last grant if and only if the transport reported that grant unsent, it is still the current one with an open outcome and no receipt, and nobody reviews the purchase |
| `FinancialOutcomes.ReceiptKeptExactly` | apps/api/app/domains/purchases/financial.py:173-189 | in every reachable state a receipt is kept, as reported, if and only if it comes for the current grant, the outcome is open and no other candidate is known |
| `FinancialOutcomes.DemotedExactly` | apps/api/app/domains/purchases/financial.py:213-249 | in every reachable state, for each kind of read: a review is opened exactly by a conflict or an ended recovery window, an open outcome becomes unknown, a bound operation is looked at again, all evidence stays, and outdated views change nothing |
| `FinancialOutcomes.ReleasedExactly` | apps/api/app/domains/purchases/financial.py:252-275 | in every reachable state changed terms release the purchase if and only if the reader saw its current state and each operation was never granted or had every grant returned; with anything out they review it |
| `FinancialOutcomes.BoundExactly` | apps/api/app/domains/purchases/financial.py:278-401 | in every reachable state a point proof binds the operation to the id it read if and only if the view is current, the operation was sent and not returned, the proof fits and no other purchase of the account has the object; a taken object opens a conflict, anything else changes nothing; an agreement leaves intent review exactly when neither operation is reviewed any more |
| `FinancialOutcomes.EscalatedExactly` | apps/api/app/domains/purchases/financial.py:404-442 | in every reachable state the batch reviews an operation if and only if it is held, as the batch saw it, open and past its recovery window |
| `FinancialStore.Store.PinPurchase` | apps/api/app/domains/purchases/service.py:308-418 | acceptance as written refuses ambiguity, replays the key, respects the hold, and otherwise inserts the intent, both operations and the hold |
| `FinancialStore.Store.ClaimFinancial` | apps/api/app/domains/purchases/financial.py:54-139 | the claim as written has the effect and the reply of the claim event, whose exact conditions FinancialOutcomes.GrantedExactly states |
| `FinancialStore.Store.ProvenNotSentResult` | apps/api/app/domains/purchases/financial.py:142-170 | a not-sent result is accepted only from the owner of the current grant, and retires its fence |
| `FinancialStore.Store.RecordReceipt` | apps/api/app/domains/purchases/financial.py:173-189 | the candidate id is kept for the current grant and never replaced |
| `FinancialStore.Store.FinancialPending` | apps/api/app/domains/purchases/financial.py:213-249 | a failed, empty or conflicting read demotes, escalates or reviews exactly as the branch says and keeps the evidence |
| `FinancialStore.Store.ChangedUnsentTerms` | apps/api/app/domains/purchases/financial.py:252-275 | changed terms release an unsent purchase and send any other one to review, but only for the snapshot that was seen |
| `FinancialStore.Store.BindFinancial` | apps/api/app/domains/purchases/financial.py:278-401 | binding as written, with a violated index turned into a conflict of its own |
| `FinancialStore.Store.EscalateOne` | apps/api/app/domains/purchases/financial.py:417-441 | one escalation transaction acts only on the operation as the batch read it |
| `FinancialStore.Store.EscalateOverdue` | apps/api/app/domains/purchases/financial.py:404-442 | a batch only closes overdue operations of its candidates, keeps all evidence, stays within its limit, and below the limit leaves no candidate overdue |
| `CustomerTheorems.LeasesNeverOverlap` | apps/api/app/domains/billing/customers.py:189-218 | over every run, when an attempt is granted every earlier one has ended or its lease has expired |
| `CustomerTheorems.CreateInsideOwnLease` | apps/api/app/composition/billing.py:125-160 | a CREATE leaves inside its own lease with more than twice the cleanup time left, before its end, and while no other grant is live |
| `CustomerTheorems.DiscoveryFollowsEarlierAttempts` | apps/api/app/domains/billing/customers.py:338-342 | a grant rests on a reservation made after every retired attempt ended; after an expired lease, later than twice the cleanup time into the earlier claim |
| `CustomerTheorems.EndRefusesOldSnapshotsExactlyInPossibleSend` | apps/api/app/domains/billing/customers.py:322-343 | after an attempt ends, a snapshot taken while it ran is refused exactly when the operation was in POSSIBLE_SEND |
| `CustomerTheorems.LateEndGrantsOnAnOlderSnapshot` | apps/api/app/domains/billing/customers.py:338-342 | a concrete run in which a grant rests on a reservation older than the end of the previous attempt |
| `CustomerTheorems.IdentityIsWriteOnce` | apps/api/app/domains/billing/customers.py:166-221 | over every run receipt and provider id are write-once, fences never return, and once either id is set no attempt is ever granted |
| `CustomerTheorems.BoundIdentityIsProven` | apps/api/app/domains/billing/customers.py:346-430 | BOUND means a provider id equal to the operation's bound id; one slot per (account, user) and one owner per id in an account; column checks and attempt counts hold |
| `CustomerTheorems.ConflictIsLiftedExactlyByOriginalRead` | apps/api/app/domains/billing/customer_reviews.py:33-68 | an identity conflict returns to BOUND if and only if a current point read gives the original key for the proven id and every open review is an unknown outcome or that exact key mismatch |
| `CustomerTheorems.ConflictOtherwiseStands` | apps/api/app/domains/billing/customer_reviews.py:58-68 | no other event lifts an identity conflict, and none grants while it stands |
| `CustomerTheorems.FenceWitnessesIdentity` | apps/api/app/domains/billing/customer_reviews.py:106-108 | while a proven customer's fence stands, no conflict was recorded, not even one lifted since |
| `CustomerTheorems.RecheckCoversTheWholeRun` | apps/api/app/domains/billing/customers.py:433-452 | a recheck that accepts the snapshot of a point read proves that the customer was BOUND to that id throughout the run in between |
| `CustomerRuns.StepKeeps` | apps/api/app/domains/billing/customers.py:126-476 | every event keeps the invariant of identity, leases, fences, attempts and unique constraints |
| `CustomerRuns.GrantKeeps` | apps/api/app/domains/billing/customers.py:183-219 | a grant comes after every earlier lease and on a reservation that carries the current fence |
| `CustomerOutcomes.ReservedExactly` | apps/api/app/domains/billing/customers.py:126-163 | in every reachable state a reservation finds the one slot of its account and user or creates it with a new key, and the driver gets the slot as it stands if and only if everything under review may be settled by a read |
| `CustomerOutcomes.CreatePermittedExactly` | apps/api/app/domains/billing/customers.py:166-221 | in every reachable state a CREATE is permitted if and only if the caller owns the customer, its reservation has the current fence and key, no id or receipt is known, only unknown outcomes are under review and no earlier lease is live; it comes with a new fence, a recovery window and a lease of total plus cleanup time, and any other claim changes nothing |
| `CustomerOutcomes.ReceiptKeptExactly` | apps/api/app/domains/billing/customers.py:224-249 | a candidate is stored as it was reported if and only if it is in range, comes with the current fence and key, its claim is open and no other candidate is known |
| `CustomerOutcomes.UnsentExactly` | apps/api/app/domains/billing/customers.py:292-319 | in every reachable state a running attempt that dispatched nothing takes its claim back if and only if the fence is still its own, its send is the recorded open question and there is neither id nor receipt |
| `CustomerOutcomes.EndedExactly` | apps/api/app/domains/billing/customers.py:322-343 | in every reachable state the end of a running attempt whose fence is current leaves no lease behind, and makes the outcome unknown behind a new fence if and only if its send was the recorded open question; with another fence the customer stays as it is |
| `CustomerOutcomes.ProvenExactly` | apps/api/app/domains/billing/customers.py:346-430 | in every reachable state, whatever the binding: a point read proves the customer if and only if fence and key are current, what is under review may be settled, the object carries the customer's own key, no other id was proven and no other customer of the account has the id; every other such read with a key leaves a conflict behind a new fence that keeps what was proven, and the rest changes nothing |
| `CustomerOutcomes.AmbiguityConflictsExactly` | apps/api/app/domains/billing/customers.py:346-382 | in every reachable state an ambiguous search is recorded as a conflict if and only if its view is current and what is under review may be settled |
| `CustomerOutcomes.RecheckAcceptsExactly` | apps/api/app/domains/billing/customers.py:433-452 | in every reachable state the last look accepts if and only if the user's customer is proven with the id, key and fence the reader saw and only unknown outcomes are under review |
| `CustomerOutcomes.EscalatedExactly` | apps/api/app/domains/billing/customers.py:463-475 | in every reachable state an open outcome is put under review if and only if its two hours are over |
| `CustomerStore.Store.ReserveCustomer` | apps/api/app/domains/billing/customers.py:126-163 | the slot of (account, user) is reused or created once, behind the recovery reviews |
| `CustomerStore.Store.ClaimCustomerSend` | apps/api/app/domains/billing/customers.py:166-221 | the claim as written: admission reviews, no id or receipt, current fence, no live lease, then fence, window and lease together |
| `CustomerStore.Store.RecordCustomerReceipt` | apps/api/app/domains/billing/customers.py:224-249 | a receipt in range is stored for the owner of the fence and never replaced |
| `CustomerStore.Store.ReleaseUnsentClaim` | apps/api/app/domains/billing/customers.py:292-319 | a proven unsent claim returns to pending with a new fence and no send evidence |
| `CustomerStore.Store.FinishCustomerAttempt` | apps/api/app/domains/billing/customers.py:322-343 | an ended attempt gives up only its own lease, and retires its fence while its send is open |
| `CustomerStore.Store.RecordCustomerReview` | apps/api/app/domains/billing/customer_reviews.py:71-87 | a review is opened once per reason and moves the operation to manual review |
| `CustomerStore.Store.RecordCustomerConflict` | apps/api/app/domains/billing/customer_reviews.py:90-108 | a conflict replaces the fence and records a key mismatch only for the id already proven |
| `CustomerStore.Store.ApplyCustomerRead` | apps/api/app/domains/billing/customers.py:346-430 | the read as written has the effect and the reply of the read event, whose exact conditions CustomerOutcomes.ProvenExactly states; an id owned elsewhere becomes a conflict of its own |
| `CustomerStore.Store.EscalateOverdueCustomers` | apps/api/app/domains/billing/customers.py:455-476 | the batch has the effect of its single transactions and counts exactly the customers that were overdue |
| `CustomerStore.EscalateAllEffect` | apps/api/app/domains/billing/customers.py:463-475 | a batch reviews each of its overdue customers once, settles it, and changes nobody else |
| `PreflightRuns.SlotsAreConserved` | apps/api/app/infrastructure/preflight.py:105-139 | in every reachable state active means admitted, bounds hold, an active budget owns at most one task, a slot is returned at most once, and a finished budget keeps its slot only for a task or a done callback that is still to come |
| `PreflightRuns.NoBargingNoLostWakeup` | apps/api/app/infrastructure/preflight.py:211-251 | while open a waiting queue means all slots are taken; grants come in arrival order and before the work deadline |
| `PreflightRuns.FirstLiveGranted` | apps/api/app/infrastructure/preflight.py:211-221 | a freed slot goes to the first waiter that is live and in time |
| `PreflightRuns.SlotPassesOn` | apps/api/app/infrastructure/preflight.py:254-260 | a budget that leaves without a task, even one granted and then cancelled, hands its slot to the next live waiter |
| `PreflightRuns.ClosedNeverActivates` | apps/api/app/infrastructure/preflight.py:262-277 | after close no run activates a budget |
| `PreflightRuns.ProtectedIsNeverCancelled` | apps/api/app/infrastructure/preflight.py:118-139 | no event asks a task in protected cleanup to stop |
| `PreflightRuns.NoSlotFreedUnderTask` | apps/api/app/infrastructure/preflight.py:113-117 | a budget loses its slot only when none of its tasks is running |
| `PreflightOutcomes.WelcomedExactly` | apps/api/app/infrastructure/preflight.py:223-260 | over every run an opening gets a slot if and only if one is free and nobody waits, a place at the end of the queue if and only if it must wait and there is room, and is over at once if and only if it gets neither or its work deadline has passed; nobody else is affected |
| `PreflightOutcomes.TaskStartsExactly` | apps/api/app/infrastructure/preflight.py:88-173 | over every run a budget gets a task if and only if run() is entered before its opening time plus total minus cleanup time, while the owner is open and the budget is admitted, unfinished and without a task |
| `PreflightOutcomes.TaskEndsExactly` | apps/api/app/infrastructure/preflight.py:105-188 | over every run a task is dropped if and only if it has stopped and its own finally block or callback runs |
| `PreflightOutcomes.CancelledExactly` | apps/api/app/infrastructure/preflight.py:137-149 | over every run a task is asked to stop if and only if it is unprotected and its own cancellation or a close comes |
| `PreflightOutcomes.ProtectedExactly` | apps/api/app/infrastructure/preflight.py:118-135 | over every run a task is protected exactly from its own entry into cleanup until it leaves it |
| `PreflightOutcomes.LeavesExactly` | apps/api/app/infrastructure/preflight.py:254-260 | over every run a budget is finished if and only if it left, after its wait was over |
| `PreflightOutcomes.SlotGivenUpExactly` | apps/api/app/infrastructure/preflight.py:105-117 | over every run a slot is given up if and only if its budget leaves without a task or the callback of a finished budget's last task runs |
| `PreflightOutcomes.ClosedExactly` | apps/api/app/infrastructure/preflight.py:262-277 | a close refuses exactly those who wait and takes no slot and no task away |
| `PreflightAdmission.Admission.constructor` | apps/api/app/infrastructure/preflight.py:192-197 | a new owner is open and empty |
| `PreflightAdmission.Admission.HandOver` | apps/api/app/infrastructure/preflight.py:211-221 | the release loop as written has the effect of the recursive specification |
| `PreflightAdmission.Admission.ReleaseFinished` | apps/api/app/infrastructure/preflight.py:113-116 | a finished, admitted budget without tasks returns its slot, and no other does |
| `PreflightAdmission.Admission.RemoveEntry` | apps/api/app/infrastructure/preflight.py:255-258 | exactly the first entry of a budget leaves the queue |
| `PreflightAdmission.Admission.Exit` | apps/api/app/infrastructure/preflight.py:254-260 | leaving removes the entry, finishes the budget and releases its slot |
| `PreflightAdmission.Admission.Operation` | apps/api/app/infrastructure/preflight.py:223-253 | an opening gets a slot, a place, or a refusal that leaves nothing behind |
| `PreflightAdmission.Admission.RunSource` | apps/api/app/infrastructure/preflight.py:151-173 | run() as written creates a source task as the start event does, and otherwise refuses without a trace; when that is, PreflightOutcomes.TaskStartsExactly says |
| `PreflightAdmission.Admission.DropStopped` | apps/api/app/infrastructure/preflight.py:186-188 | a call of run() that ends drops its stopped task without releasing the slot |
| `PreflightAdmission.Admission.OnSourceDone` | apps/api/app/infrastructure/preflight.py:105-111 | the end of a task uncounts it and may return the slot |
| `PreflightAdmission.Admission.FailWaiters` | apps/api/app/infrastructure/preflight.py:265-268 | close fails every live waiter and empties the queue |
| `PreflightAdmission.Admission.StopTasks` | apps/api/app/infrastructure/preflight.py:270-273 | close asks each unprotected task to stop, once |
| `PreflightAdmission.Admission.Aclose` | apps/api/app/infrastructure/preflight.py:262-277 | close as written has the effect of the close event on the whole state |
| `LinkTheorems.ProductHistory` | apps/api/app/domains/catalog/link_publication.py:302-352 | in every reachable state a product's revisions are numbered 1 to n without gap or repetition and its head names the n-th |
| `LinkTheorems.OfferHistory` | apps/api/app/domains/catalog/link_publication.py:322-325 | the revisions of an offer in an account are numbered from 1 without gap or repetition, across products |
| `LinkTheorems.CurrentOffersAreInjective` | apps/api/app/infrastructure/queries/commercial_mappings.py:52-71 | no two current products of one account share an offer |
| `LinkTheorems.OneAccountPerOrigin` | apps/api/app/domains/billing/customer_scope.py:27-51 | all customers and heads proven to one origin live in one account, with one customer row per user, although the first row of each is decided before it exists |
| `LinkTheorems.OriginIndexNeverFires` | apps/api/alembic/versions/20261029_0003_normal_billing.py:46-50 | two heads with one origin and product are the same head, so the unique constraint never refuses |
| `LinkTheorems.ResultsMatchTheTable` | apps/api/app/domains/catalog/link_publication.py:254-382 | a call appends at most its own row; a reported row is stored with its meaning and the successor of the expected number; a refusal, conflict or unchanged result appended nothing, and an unchanged result names a stored revision of the same product, offer and content |
| `LinkTheorems.RecoveredExactlyWhenStored` | apps/api/app/domains/catalog/link_publication.py:373-382 | after a lost answer a readable table reports the call as recovered if and only if its own row was committed |
| `LinkTheorems.OneWinnerPerExpectedRevision` | apps/api/app/domains/catalog/link_publication.py:319-321 | of two calls expecting the same revision of a product only one reports a new revision |
| `LinkTheorems.StepAppends` | apps/api/app/domains/catalog/link_publication.py:326-363 | only a commit writes, it appends at most its own revision, and heads advance by at most one |
| `LinkTheorems.RevisionsAreImmutable` | apps/api/app/domains/catalog/link_publication.py:280-286 | no run changes or removes a stored revision |
| `LinkTheorems.ResultsAreFinal` | apps/api/app/domains/catalog/link_publication.py:362-382 | a finished call keeps its result over every run |
| `LinkTheorems.NoDeadlock` | apps/api/app/domains/billing/customer_scope.py:14-33 | whenever a transaction waits, some lock holder commits or moves on with its next statement, because user, origin, product and offer locks are taken in that order |
| `LinkRuns.StepKeeps` | apps/api/app/domains/catalog/link_publication.py:254-382 | every statement, commit, lost commit and rollback keeps the tables and what every other transaction relies on |
| `LinkRuns.AppendedOther` | apps/api/app/infrastructure/persistence/billing_connections.py:38-57 | a commit leaves what other transactions read under their locks true |
| `LinkOutcomes.PublisherDecidesExactly` | apps/api/app/domains/catalog/link_publication.py:272-325 | in every reachable state each statement of an interleaved publication goes on as the tables say then: it gets a lock exactly when nobody else holds it; its account is the one that is proven or vouched for, or its own; it is refused exactly for a product linked elsewhere or an offer in use; unchanged exactly when the current link has its offer and content; a conflict exactly when the product was not linked as often as expected |
| `LinkOutcomes.LinkIsStoredExactly` | apps/api/app/domains/catalog/link_publication.py:319-372 | in every reachable state the last statement stores the next revision of its product and its offer, counted by the links so far, with a head that names it, unless the commit is dropped; it reports it only when it hears the answer |
| `LinkOutcomes.PublishedExactly` | apps/api/app/domains/catalog/link_publication.py:254-372 | from every reachable state without a lock held, one call is refused, unchanged, in conflict or published if and only if the tables meet the stated condition, and leaves exactly the stated tables |
| `LinkOutcomes.ReservationDecidesExactly` | apps/api/app/domains/billing/customer_scope.py:27-51 | in every reachable state a reservation goes on with an account if and only if every proven or vouched account is that one, it is the configured one when none is proven, and no slot of the user there has another origin |
| `LinkOutcomes.SlotIsStoredExactly` | apps/api/app/domains/billing/customers.py:126-143 | in every reachable state its commit stores one row of its user, account and origin if and only if there was none and the commit is not dropped |
| `LinkStore.Store.ResolveConnectionScope` | apps/api/app/domains/catalog/link_publication.py:131-175 | the loop over heads decides the account as the specification over all connected heads does |
| `LinkStore.Store.LatestOfferNumber` | apps/api/app/infrastructure/queries/commercial_mappings.py:31-41 | the query finds the largest stored number of the offer |
| `LinkStore.Store.PublishProductLink` | apps/api/app/domains/catalog/link_publication.py:254-382 | the call as written, when it gets every lock, has the specified effect and result |
| `LinkStore.AloneIsAtOnce` | apps/api/app/domains/catalog/link_publication.py:272-382 | run statement by statement among idle transactions the call has exactly that effect and result |
| `MappingApprovals.Mappings.PublishMapping` | apps/api/app/domains/catalog/publication.py:158-222 | publication under its lock as written: equality, expected number, comparison with every stored revision, append; when it answers what, AnsweredExactly states without these steps |
| `MappingApprovals.AnsweredExactly` | apps/api/app/domains/catalog/publication.py:170-203 | every answer by its meaning: inserted if and only if the number is the current one and the longer history is in order; unchanged, with the stored row, if and only if the latest revision has the meaning, whatever the number; a conflict if and only if it has not and another number than the current one is expected; every other refusal names a stored revision that it contradicts |
| `MappingApprovals.InsertedAtItsNumber` | apps/api/app/domains/catalog/publication.py:170-203 | over every run an attempt that changes the history appends its own row at the number it expected, and the row stays there |
| `MappingApprovals.OneInsertPerNumber` | apps/api/app/domains/catalog/publication.py:176-178 | over every run at most one of all attempts with one expected number changes the history |
| `MappingApprovals.UsedNumberIsRefused` | apps/api/app/domains/catalog/publication.py:170-178 | over every run whoever comes with a used number changes nothing and gets the latest row of the same meaning or a conflict |
| `MappingApprovals.RetryIsUnchanged` | apps/api/app/domains/catalog/publication.py:170-175 | a retry of the latest meaning with the previous number is answered with the stored row |
| `MappingApprovals.AcceptedExactlyWhenConsistent` | apps/api/app/domains/catalog/mapping_evidence.py:346-370 | with the expected number, a revision is accepted if and only if the longer history is pairwise consistent and changes the fingerprint |
| `MappingApprovals.HistoryIsConsistent` | apps/api/app/domains/catalog/publication.py:164-203 | over every run references determine approvals, approvals determine binding, terms and evidence for all pairs of revisions, neighbours differ, and published rows stay |
| `MappingApprovals.OwnCommitIsRecovered` | apps/api/app/domains/catalog/publication.py:223-236 | a stored own row is found under its number and reported as recovered whatever is published later |
| `MappingApprovals.Mappings.RecoverPublication` | apps/api/app/domains/catalog/publication.py:223-236 | the read after a lost answer as written: the row under the attempted number is reported when it has the own fingerprint |
| `MappingApprovals.OwnIdDecides` | apps/api/app/domains/catalog/publication.py:223-236 | for every later run of other callers, recovered with the own row id if and only if the own commit had taken effect by the read |
| `MappingApprovals.FingerprintDecidesWithoutTwins` | apps/api/app/domains/catalog/publication.py:223-236 | if no later caller carries the own fingerprint, recovered if and only if the own commit had taken effect by the read |
| `MappingApprovals.RecoveredIsOwnExactlyWithoutTwins` | apps/api/app/domains/catalog/publication.py:223-236 | for any set of candidates the other callers may publish: recovered implies an own commit over all their runs if and only if none of them has the own fingerprint |
| `MappingApprovals.DroppedCommitCanBeRecovered` | apps/api/app/domains/catalog/publication.py:223-236 | for every accepted publication, another caller with the same meaning and another id makes its dropped commit be reported as recovered |
| `Drivers.EnsureCustomer` | apps/api/app/composition/billing.py:163-226 | whatever the provider answers, a claim directly follows a fresh reservation, a proven absence and an authentication; failed sends wait and reread; taken emails and permanent failures end sending; a deadline at any call ends the loop; what is remembered of a failure decides which call follows which, and the loop ends only for the stated reasons |
| `Drivers.AbsentCustomerIsSent` | apps/api/app/composition/billing.py:190-218 | behind a proven absence with nothing in the way, the loop logs in, claims and sends as far as the answers allow |
| `CustomerDrivers.GrantFollowsOwnSearch` | apps/api/app/composition/billing.py:184-218 | a driver's calls and everybody else's events are one run of the customer protocol, and in it every claim granted to the driver rests on a search of its own that began after every earlier attempt had retired its fence, or, for a lease left to run out, later than twice the cleanup time into the earlier claim |
| `CustomerDrivers.GrantReadsOwnReservation` | apps/api/app/composition/billing.py:189-223 | the attempt granted at a call rests on exactly the reservation that the driver made three calls before, although others reserve in between |
| `Drivers.SendOnce` | apps/api/app/composition/billing.py:204-214 | one claim, and only if it is granted the one send, whose failure is remembered as the loop needs it |
| `Drivers.Guard` | apps/api/app/composition/purchases.py:305-353 | the five checks of a round run in order and stop at the first that is not clear; all clear leaves exactly the guards a POST needs |
| `Drivers.Send` | apps/api/app/composition/purchases.py:305-361 | a POST directly follows live terms, a clear inventory, an empty search, a login and a grant |
| `Drivers.Prepare` | apps/api/app/composition/purchases.py:280-384 | each kind is posted at most once and nothing after a not-sent result; the subscription waits for a proven agreement; payment proof comes only from a call that recovered both and posted nothing, and a call that wants it raises for its lack only then; every call is fixed by those before it and the answers: an object is read back exactly when it was not claimable or has just been posted, and the reasons to end are fixed |
| `Drivers.ClaimableIsPosted` | apps/api/app/composition/purchases.py:294-361 | a claimable operation that is not under review, with sending allowed and every check clear, is posted and gets the environment's answer |
| `Drivers.PostedIsRecovered` | apps/api/app/composition/purchases.py:362-384 | what a call has posted, unless the answer is not sent or cancelled, it reads back next |
| `FinancialDrivers.PostFollowsOwnSearch` | apps/api/app/composition/purchases.py:294-361 | a call of _prepare and everybody else's events are one run of the financial protocol, and in it every POST follows a clear inventory and an empty search of the call's own; from its first read up to its claim every earlier grant of the operation had been returned unsent, nobody was granted another, and no CREATE of the operation had taken effect |
| `FinancialDrivers.OnlyOwnPostTakesEffect` | apps/api/app/composition/purchases.py:343-362 | after such a claim, at any later time and whatever the others do, a CREATE of the operation that has taken effect belongs to this grant or to a later one |
| `Dotenv.GroupIsLongest` | scripts/repo.py:257-270 | the backtracking match of a quoted value is the longest one, and is missed only when there is none |
| `Dotenv.ValueRoundTrip` | scripts/repo.py:528-550 | exactly unsupported control characters are refused, and every accepted value is read back unchanged |
| `Dotenv.ReadRuntimeEnv` | scripts/repo.py:3435-3443 | the reading loop computes the specified map or fails |
| `Dotenv.FileRoundTrip` | scripts/repo.py:522-525 | a written file reads back exactly when no value holds U+0085, U+2028 or U+2029 |
| `CanonicalDecimal.CanonicalDecidesValue` | apps/api/app/domains/catalog/commercial_offer.py:46-53 | two finite decimals have the same text if and only if they have the same value, for all coefficients and exponents |
| `CanonicalDecimal.ReadBack` | apps/api/app/domains/catalog/commercial_offer.py:46-53 | reading the text back gives the value's normal form |
| `CanonicalDecimal.TextIsPlain` | apps/api/app/domains/catalog/commercial_offer.py:47-53 | the text has at most one point, no exponent, no negative zero, no leading zero and no trailing fractional zero |
| `CanonicalDecimal.PlainIsWritten` | apps/api/app/domains/catalog/commercial_offer.py:46-53 | a text is in that notation if and only if it is the canonical text of the decimal that it denotes |
| `CanonicalDecimal.NormalIsUnique` | apps/api/app/domains/catalog/commercial_offer.py:46-53 | a value has one normal form |
| `Manifests.DigestIdentifiesMeaning` | tools/kernel_manifest_mock/server.py:126-140 | two stampable manifests have one digest if and only if they name the same scope and the same products and metrics, in any order and at any time |
| `Manifests.FormIsRead` | tools/kernel_manifest_mock/server.py:126-140 | equal canonical texts come from the same scope and rows, whatever characters they hold |
| `Manifests.SemanticVersion` | tools/kernel_manifest_mock/server.py:83-140 | the producer's loops accept exactly the stampable manifests and hash their canonical text |
| `Manifests.CheckRows` | tools/kernel_manifest_mock/server.py:92-119 | one collection passes exactly when its rows fit and their names are distinct |
| `Manifests.ClientAcceptsExactlyStamped` | apps/api/app/integrations/kernel/client.py:115-165 | the client accepts for a scope exactly the dated manifests that the producer stamps for it |
| `ManifestCheck.CheckAgreesWithClient` | scripts/check_kernel_manifest_contract.py:107-115 | the contract check, with its own digest, and the client decide alike |
| `ManifestCheck.DigestsAgree` | scripts/check_kernel_manifest_contract.py:98-104 | on every document of the schema, projecting the five fields, sorting the two collections and dumping all objects by sorted keys gives the producer's canonical text |
| `Manifests.UniqueObject` | apps/api/app/integrations/kernel/client.py:102-108 | a JSON object becomes a map of all its fields exactly when no field repeats |

## Left out

- Rows written by earlier releases, other hint schemas and the migration's own data changes; every row of the model was written by the code shown.
- HTTP, JWT signing, response decoding, authentication and email verification: a provider call is an event of the environment, and a caller is an argument.
- PostgreSQL mechanics: a transaction of the user-locked protocols is one step, an advisory lock is mutual exclusion, a unique index refuses the violating write; lock timeouts, SQLSTATE classes and pool failures appear only as committed, not committed or unknown.
- uuid4 and secrets give values not seen before; SHA-256 digests stand for what they digest.
- Two clocks: the customer model measures the database lease and the monotonic budget with one clock, and one release loop of the scheduler reads the clock once.
- customers.py:380-389 (a read without an id that is not ambiguous) is not a step: no driver makes that call.
- record_customer_create_failure: it only stores bounded response facts on the work item.
- The asyncio event loop: futures, timeouts and cancellation are events between the stretches of code; the order in which ready callbacks run is arbitrary.
- FinancialStore.Store.PinPurchase: the review of accepted documents, head, consent and customer is one flag, an argument of the step.
- FinancialStore.Store.ClaimFinancial: the customer and its reviews inside the claim are one flag, an argument of the step.
- LinkStore.Store.PublishProductLink: refusals that depend on other customers' bindings or on version-1 mappings, and the deadlines, are not modelled; in the interleaved runs a publisher may stop at any point instead.
- LinkOutcomes.PublisherDecidesExactly: the same refusals are aborts of their own, so exactly means among the conditions over links, heads and customers.
- LinkOutcomes.PublishedExactly: as above.
- LinkOutcomes.ReservationDecidesExactly: the refusal because of the user's customer with provider evidence in another account is an abort, as above.
- MappingApprovals.Mappings.PublishMapping: evidence windows, deadlines and the validation of stored rows are not modelled; a candidate is taken as evaluated.
- MappingApprovals.OwnIdDecides: a commit counts as stored if it took effect by the time of the recovery read; one that takes effect only after that read is stored later although the call was not reported as recovered.
- MappingApprovals.FingerprintDecidesWithoutTwins: stored means stored by the time of the recovery read, as above.
- MappingApprovals.RecoveredIsOwnExactlyWithoutTwins: stored means stored by the time of the recovery read, as above.
- FinancialStore.Store.EscalateOverdue: the batch query is an argument, so its order and its LIMIT clause are not modelled.
- CustomerStore.Store.EscalateOverdueCustomers: the batch query is an argument, as above.
- Drivers.EnsureCustomer: waiting times, logging and the identity fields of the snapshot are not modelled; a changed operation id is a refused reservation, and any exit by another error while an attempt runs is an interrupted attempt.
- Drivers.Prepare: the proofs of single provider objects (seller, number, terms) are answers of the environment, in its traces and in the runs of FinancialDrivers.
- Strings are sequences of Unicode scalar values, so lone surrogates, which Python strings may hold, are not covered.
- response_manifest's fault scenarios, unknown top-level manifest fields and JSON parsing.
- Routers, web code, settings parsing, observability, sessions and rate limits.
