# Verified model of the billing money authority

This project models, in Dafny, the parts of the platform's billing service that decide about money: one commercial
account from provisioning to closure, exact invoice arithmetic, the price book, period close, payment job
orchestration and the raw-log retention fence. Properties are stated for every input, every run and every
interleaving. To verify the project: `dafny verify dfyconfig.toml`.

How it is laid out:

- Every store call that is one transaction is one step on a snapshot of the rows it locks; a failed call changes
  nothing. Calls that are several transactions (finalizing a handoff, closing a period, requesting or resolving a
  retirement, processing a payment job) are several steps, with any other step, a crash or a retry in between.
  `Run` applies any sequence of steps, so a lemma about `Run` is about every history.
- `Account` holds the account's steps; `AccountBooks`, `AccountReversals`, `AccountHandoff`, `AccountClosure`,
  `AccountTopUps` and `AccountPolicy` prove what all runs keep. `PriceBook`, `PeriodClose`, `PaymentJobs` and
  `RetentionFence` each hold a protocol and its invariants. `PeriodClose` runs on top of the whole account machine.
- `AccountObligations`, `AccountProtocol`, `AccountDispositions`, `AccountEffects` and `AccountPayments` say on the rows,
  step by step, exactly when each operation goes through and what it leaves; `PaymentOutcomes` and
  `RetentionAcceptance` do the same for their machines.
- Every machine has a run that goes to the end (`AccountExamples` for handoff and closure, the last lemma of the other
  four), so the statements are not about states that never occur.
- `AccountStore`, `PricingStore`, `BillingService`, `PaymentService` and `RetentionStore` are the stores and services
  as objects whose methods update fields in the source's order. Each method is proved to do exactly the step, and
  each object keeps the invariants (or remembers its run), so the run lemmas hold of it.
- `Money`, `TaxAllocation`, `OtaCard`, `Aggregation` and `DraftInvoice` are the arithmetic; loops of the source are
  methods with loops, in place on an array where the source works in place.

Conventions: SHA-256 digests of a request or of captured state are the request or the state itself (injectivity).
Rows the database names are named by position. Times are integers. A sorted list without repeated keys is the set it
lists. Keys joined with NUL are tuples (no component contains NUL). Where the code only collects well-formedness
checks of a request (UUID shape, blank fields, lengths), they are one flag `wellFormed`. Integers are unbounded and
every int64 limit is written out.

Two expected properties are false of `PostLedgerEntry` taken by itself, because it accepts any idempotency scope from
any caller. Each has its failing input and its exact condition, and each holds in every run of the program, whose own
callers post only invoice debits under `billing_invoice` (internal/billingservice/service.go:96-103) and API debits under
`billing_debit/...` (internal/api/internal_billing_debits.go:64-71); `ProgramKeepsBooks` states that.

- An intent has its credit exactly when it succeeded: `ForgedCredit` is the failing input, `PostKeepsCreditsIff` the
  condition.
- Every ledger entry in the invoice scope is an invoice's debit of exactly its total: `ForeignDebit` is the failing
  input, `ForeignPostIff` the condition. A settled invoice has its exact debit in any case.

Merging local evidence into the collector's only adds blockers in every run (`RunMergesOnlyAdd`). The merge function by
itself relies for this on a guard of its callers, who all refuse negative counts first: `MergeOnlyAddsIff` gives its
exact condition on the two reports, `NegativeCountHidden` the report that would need the guard.

## Model

| member | source | states |
|---|---|---|
| Money.RoundedInt64IsExact | internal/billing/money.go:49-76 | Rounding returns q exactly when q is the value the mode means (defined by multiplication, not division) and fits int64, in all three modes |
| Money.RoundedMonotone | internal/billing/money.go:49-76 | A larger numerator never rounds to a smaller amount |
| Money.PriceUsageIsExact | internal/billing/money.go:16-47 | A quantity prices to (subtotal, tax, total) exactly when the scales and signs are legal, subtotal and tax are the rounded exact products in the rate's mode, and the total adds up within int64 |
| Money.Pow10Adds | internal/billing/money.go:78-80 | Powers of ten: one for no digits, ten for one, and digits add |
| Money.ShiftQuantity | internal/billing/money.go:36-47 | Writing a quantity with one more decimal digit changes no price, in any mode |
| Money.ShiftPrice | internal/billing/money.go:36-47 | Nor does writing the unit price with one more |
| Money.WholeUnits | internal/billing/money.go:36-47 | Without decimals a subtotal is quantity times unit price, or an overflow |
| Money.FixedScale | internal/billing/money.go:40-43 | A fixed quantity scale only refuses other scales |
| TaxAllocation.LargestRemainderUnique | internal/billing/invoice.go:177-184 | The largest-remainder rule (floor or ceiling, extra units to the largest remainders, earlier line on ties, sum exact) names one allocation only |
| TaxAllocation.SpareBounds | internal/billing/invoice.go:162-181 | The floors never exceed the rounded tax, and the units left over are within the remainders' budget, in every mode |
| TaxAllocation.SpareUnits | internal/billing/invoice.go:177-184 | There are at most as many spare units as lines with a positive remainder, so a line with remainder zero never gets one |
| TaxAllocation.GiveFloors | internal/billing/invoice.go:166-176 | The first pass gives every line the floor of its share in place; its overflow exit is unreachable |
| TaxAllocation.GiveSpare | internal/billing/invoice.go:177-184 | The second pass turns the floors into the largest-remainder allocation of floors plus spare units |
| TaxAllocation.FillTotals | internal/billing/invoice.go:185-191 | Line totals add up and none can overflow when the invoice total does not |
| TaxAllocation.AllocateInvoiceTax | internal/billing/invoice.go:150-196 | Fails only where rounding or the invoice total fails; otherwise line taxes are the largest-remainder allocation of exactly the rounded tax and every line adds up |
| OtaCard.OTAPricingState | internal/billing/ota.go:75-97 | Complete exactly when the card has no OTA rate, or each of the four approved meters exactly once and nothing else under OTA |
| OtaCard.MetersAre | internal/billing/ota.go:58-69 | The four meters, their units, prices, scales and rounding, and that each must name a tax category |
| OtaCard.ExtensionIsConservative | internal/billing/ota_card_review.go:63-117 | The non-OTA identities of an accepted candidate are exactly the base's and its OTA identities exactly the four meters, by counting |
| OtaCard.BaseRateSurvives | internal/billing/ota_card_review.go:63-129 | Every base rate occurs in an accepted candidate, once, with every recorded term unchanged |
| OtaCard.SamePrice | internal/billing/ota_card_review.go:118-129 | A completed rate prices every quantity it admits as the base rate does, with line tax and in invoice-total mode, and admits exactly what the base admits at its scale |
| OtaCard.AcceptedCardPricesAlike | internal/billing/ota_card_review.go:63-129 | Any non-OTA quantity an accepted candidate prices costs the same under the base, with line tax and in invoice-total mode |
| OtaCard.IndexBase | internal/billing/ota_card_review.go:67-82 | Indexing succeeds exactly on non-OTA base rates with clean, distinct identities, and indexes all of them |
| OtaCard.ReviewCandidate | internal/billing/ota_card_review.go:86-105 | The candidate loop succeeds exactly when every rate is canonical, kept from the base or OTA, and distinct |
| OtaCard.CanonicalPrices | internal/billing/ota_card_review.go:37-53 | A canonical rate prices every non-negative quantity at its scale, up to overflow |
| OtaCard.AcceptedCounts | internal/billing/ota_card_review.go:106-108 | The closing count check can never fail |
| OtaCard.ReviewOTACandidateRates | internal/billing/ota_card_review.go:63-117 | The review accepts exactly the conservative extensions, and its content does not depend on the order of the rates |
| Aggregation.BillableUsageFacts | internal/billing/ota.go:101-119 | Succeeds exactly on a complete card with valid OTA facts, and drops OTA facts only when the card prices none |
| Aggregation.AggregateFacts | internal/billing/invoice.go:65-88 | Succeeds exactly when every fact has a rate and a non-negative quantity, scales agree per key and no sum overflows; then every key holds the sum and references of its facts |
| Aggregation.SumsPermute | internal/billing/invoice.go:65-88 | The aggregates depend on the facts only as a multiset |
| Aggregation.AggregablePermutes | internal/billing/invoice.go:65-88 | Whether aggregation succeeds does not depend on the order of the facts |
| Aggregation.AscendingUnique | internal/billing/invoice.go:89-93 | The sorted key list is determined by its set of keys |
| Aggregation.KeyOrderIsJoinedOrder | internal/billing/invoice.go:89-93 | Lines appear in the order of the NUL-joined strings the source sorts |
| Aggregation.StrLessIff | internal/billing/invoice.go:89-93 | String order: at the first difference an end or a smaller character comes first |
| Aggregation.OtaFactHasItsRate | internal/billing/ota.go:25-48 | On a card with the four meters every valid OTA fact has the rate of its meter, at its own scale |
| Aggregation.OtaFactMeans | internal/billing/ota.go:25-54 | Which OTA facts are valid: product, unit, scale, quantity and window of each meter |
| DraftInvoice.IndexRates | internal/billing/invoice.go:44-54 | Succeeds exactly on distinct rates of the invoice's version, and indexes all of them |
| DraftInvoice.PriceLines | internal/billing/invoice.go:94-129 | Succeeds exactly when every key prices and the line totals fit int64; lines come in key order with the sums of their facts |
| DraftInvoice.TaxOnTotal | internal/billing/invoice.go:130-134 | Invoice-level tax succeeds exactly when it rounds and the total fits, and is shared by largest remainder |
| DraftInvoice.SumLines | internal/billing/money.go:83-91 | The line loop accepts exactly the lines that add up and returns their column sums |
| DraftInvoice.ValidateInvoiceTotals | internal/billing/money.go:82-119 | Accepts exactly the invoices that reconcile: lines, sums, settlement and tax terms |
| DraftInvoice.DraftReconciles | internal/billing/invoice.go:130-144 | Once pricing and allocation succeed the closing validation holds, in both tax modes |
| DraftInvoice.BuildDraftInvoice | internal/billing/invoice.go:21-144 | Succeeds exactly on buildable input and returns the one draft of its facts; the closing validation never fails |
| DraftInvoice.OrderIrrelevant | internal/billing/invoice.go:21-144 | Permuting the facts changes neither success nor the invoice |
| DraftInvoice.DraftUnique | internal/billing/invoice.go:21-144 | Header, facts and rates determine the invoice |
| DraftInvoice.LinesBillTheirFacts | internal/billing/invoice.go:71-129 | Each line's quantity is the sum of the billable facts of its key and its references are theirs |
| DraftInvoice.EveryFactIsBilled | internal/billing/invoice.go:71-129 | Every key a billable fact mentions has exactly one line |
| DraftInvoice.LinesSayTheirRates | internal/billing/invoice.go:99-122 | Each line carries the identity and terms of its key's one rate, the scale of its facts, and the price of their sum under that rate |
| DraftInvoice.DraftAddsUp | internal/billing/invoice.go:126-144 | Totals are the sums of the lines within int64, and invoice-level tax is the exactly rounded share of the subtotal |
| DraftInvoice.InputsMean | internal/billing/invoice.go:22-59 | Which headers, facts and rate lists are accepted |
| Evidence.OwnershipTransferBlockers | internal/billing/handoff.go:29-72 | The appended list, in order, is the specification's list |
| Evidence.TransferBlockersExact | internal/billing/handoff.go:29-72 | Each code is listed exactly when its condition holds |
| Evidence.NoBlockersMeansClear | internal/billing/handoff.go:29-72 | No blockers exactly when the evidence is complete, the balance non-negative and every obligation zero |
| Evidence.NoClosureBlockersMeansZero | internal/billing/handoff.go:76-82 | No closure blockers exactly when, besides, the balance is zero |
| Evidence.MergedBlockers | internal/paymentstore/handoff_settlement.go:243-252 | Where every blocker of merged evidence comes from; a local obligation is never hidden by an external zero |
| Evidence.MergeIdempotent | internal/paymentstore/handoff_settlement.go:243-252 | Merging the same local evidence again changes nothing |
| Evidence.MergeOnlyAddsIff | internal/paymentstore/handoff_settlement.go:243-252 | For any two reports, the merge keeps the collector's non-balance blockers exactly when no negative count of the collector is raised to a local one, field by field |
| Evidence.MergeKeepsBoth | internal/paymentstore/handoff_settlement.go:135-141 | With the recorders' guard against negative counts, merging keeps every non-balance blocker of the collector and every local blocker about money or obligations |
| Evidence.NegativeCountHidden | internal/paymentstore/handoff_settlement.go:243-252 | The merge function by itself needs that guard: minus one unpaid invoice, which the recorders refuse, would be hidden by a local zero |
| AccountBooks.RunKeepsBooks | internal/paymentstore/ledger.go:38-200 | In every reachable state the balance is the signed sum of the ledger, every balance_after the matching prefix sum within int64, keys unique |
| AccountBooks.ExactlyOneCredit | internal/paymentstore/intents.go:67-132 | An intent has exactly one credit, of its own amount, if and only if it succeeded |
| AccountBooks.PostKeepsCreditsIff | internal/paymentstore/ledger.go:38-117 | A posting keeps that law exactly when its key is outside the intent scope |
| AccountBooks.ForgedCredit | internal/paymentstore/ledger.go:38-117 | A concrete posting inside the intent scope that breaks it |
| AccountBooks.RunKeepsCredits | internal/paymentstore/intents.go:67-227 | Along every run whose postings stay out of that scope the law holds |
| AccountBooks.RunCreditsOnce | internal/paymentstore/intents.go:67-132 | Along every such run an intent succeeded if and only if an entry is its credit of its own amount, and that entry is the only one under its key |
| AccountReversals.RunKeepsReversals | internal/paymentstore/reversals.go:42-292 | Reversals allocated to an intent sum to at most its amount, over every run; each current-balance allocation owns a debit of its amount |
| AccountReversals.RunSettles | internal/paymentstore/reversals.go:173-292 | An event's allocation, once made, is final, whatever replays and resolutions follow |
| AccountReversals.AllocationEffect | internal/paymentstore/reversals.go:173-221 | A predecessor adjustment leaves all funds alone; a current allocation lowers the balance by exactly its amount |
| AccountDispositions.ClassifyIff | internal/paymentstore/reversals.go:105-171 | A reversal is the predecessor's exactly when the period of its payment has passed, the current balance's exactly when it has not and the account is open with no commit pending, and reviewed for each reason exactly when it applies |
| AccountDispositions.StepDisposes | internal/paymentstore/reversals.go:173-221 | Whatever the step, an event it allocates gets the disposition the rows call for, against the bound period |
| AccountDispositions.RecordReviews | internal/paymentstore/reversals.go:42-103 | A new event is reviewed exactly for the reason that applies, and then no funds move |
| AccountDispositions.RunDisposes | internal/paymentstore/reversals.go:42-292 | So in every reachable state, for every next step |
| AccountHandoff.StatusHasSnapshot | internal/paymentstore/handoff_settlement.go:273-332 | A status without blockers has the balance snapshot of that exact version, so the missing-row exit is never taken |
| AccountHandoff.RunKeepsHandoffs | internal/paymentstore/handoff_settlement.go:128-377 | In every reachable state receipts, snapshots, confirmations, grant and phase of every handoff fit together |
| AccountHandoff.OneOutcome | internal/paymentstore/handoff_commit.go:124-415 | No run records both a committed decision and a cancellation, and each goes with its phases |
| AccountHandoff.OutcomeIsPermanent | internal/paymentstore/handoff_commit.go:124-415 | A decision or cancellation is permanent, and finalized and aborted are absorbing, through crashes and retries |
| AccountHandoff.FinalizeAgrees | internal/paymentstore/handoff_commit.go:124-232 | The successor's opening balance is the account balance of that moment and the amount both participants confirmed on one snapshot version |
| AccountHandoff.RunKeepsOpenings | internal/paymentstore/handoff_commit.go:39-232 | In every reachable state each opening balance on record is non-negative and was confirmed by source and target |
| AccountHandoff.RunOpensOnce | internal/paymentstore/handoff_commit.go:124-232 | In every reachable state every finalized handoff opened exactly one period, with the agreed balance, and no other handoff opened any |
| AccountClosure.OpenIsLast | internal/paymentstore/handoff_commit.go:187-198 | At most one responsibility period is open, the last |
| AccountClosure.RunKeepsChain | internal/paymentstore/handoff.go:37-114 | Periods abut exactly in time with consecutive ownership versions in every reachable state |
| AccountClosure.RunOnlyEndsPeriods | internal/paymentstore/cloud_creation.go:43-97 | No run, with any replays of bootstrap or initialization, reopens, replaces or removes a period |
| AccountClosure.RunKeepsExclusion | internal/paymentstore/handoff.go:116-234 | At most one live handoff or uncanceled closure at a time, and a retired close command never closed |
| AccountClosure.ReadyMeansZero | internal/paymentstore/cloud_closure.go:369-413 | A ready closure has balance zero, no open payment and all revocations acknowledged |
| AccountClosure.CloseEstablishes | internal/paymentstore/cloud_closure.go:449-521 | Closing establishes the closed law: balance zero, nothing open, all periods ended |
| AccountClosure.ClosedMoneyFrozen | internal/paymentstore/ledger.go:38-117 | On a closed account no writer changes the books or the state of an intent; a late webhook may still note a provider reference |
| AccountClosure.ClosedStaysZero | internal/paymentstore/cloud_closure.go:449-521 | Once any run has closed the account its balance is zero and stays zero in every continuation |
| AccountClosure.RecordingOnlyAdds | internal/paymentstore/cloud_closure.go:295-348 | Whatever handoff or closure evidence the recorders accept is merged without losing a blocker of either side |
| AccountClosure.RunMergesOnlyAdd | internal/paymentstore/cloud_closure.go:369-413 | In every reachable state, merging the live local evidence into any evidence on file keeps its non-balance blockers and hides no local one |
| AccountClosure.RunStatusShowsBlockers | internal/paymentstore/handoff_settlement.go:273-332 | In every reachable state the status of a handoff under preparation lists every blocker of its evidence and of the live account |
| AccountObligations.LocalCounts | internal/paymentstore/handoff_settlement.go:418-442 | The local evidence is clear of obligations exactly when the rows are: nothing unpaid, no debt, refund or setup, every payment over with no work left, every reviewed reversal allocated |
| AccountObligations.CaptureIsExact | internal/paymentstore/handoff_settlement.go:383-416 | Two captures agree exactly when the rows they digest agree |
| AccountObligations.StatusClearIff | internal/paymentstore/handoff_settlement.go:273-332 | A handoff status has no blockers exactly when its receipt saw the account as it is and vouches for it, nothing is owed on the rows, and the account is open with no negative balance |
| AccountObligations.ReadyIff | internal/paymentstore/cloud_closure.go:369-413 | A closure is ready exactly when its latest settlement is current and vouches, nothing is owed on the rows, the balance is zero, every revocation is acknowledged and the account is active |
| AccountObligations.ConfirmMeansSettled | internal/paymentstore/handoff_settlement.go:334-377 | A snapshot is confirmed only while nothing is owed, at the balance of the account |
| AccountObligations.FinalizeMeansSettled | internal/paymentstore/handoff_commit.go:124-232 | A handoff is finalized only while nothing is owed |
| AccountObligations.CloseMeansSettled | internal/paymentstore/cloud_closure.go:449-521 | An account is closed only while nothing is owed, at balance zero |
| AccountObligations.RunSettlesFirst | internal/paymentstore/cloud_closure.go:449-521 | In every run, every close, confirmation and finalization happens while nothing is owed |
| AccountProtocol.PrepareIff | internal/paymentstore/handoff.go:116-209 | A handoff begins exactly when the account is open and unfenced and the source responsible since before the cutoff |
| AccountProtocol.SettlementIff | internal/paymentstore/handoff_settlement.go:128-234 | A settlement is recorded exactly for a current report without negative counts, and prepares the next version exactly when the report vouches and nothing is owed |
| AccountProtocol.ConfirmIff | internal/paymentstore/handoff_settlement.go:334-377 | A confirmation is accepted exactly from a participant naming the version and balance of a clear status |
| AccountProtocol.AuthorizeIff | internal/paymentstore/handoff_commit.go:39-122 | A commit is authorized exactly when the status is clear at the named version and both sides confirmed it |
| AccountProtocol.DecideIff | internal/paymentstore/handoff_commit.go:234-282 | A decision is recorded exactly under the grant, for the target, at or after the cutoff, while the source is responsible |
| AccountProtocol.FinalizeIff | internal/paymentstore/handoff_commit.go:124-232 | Finalizing succeeds exactly on its decision, with the source responsible and the account as granted; the other checks repeat what is known |
| AccountProtocol.AbortIff | internal/paymentstore/handoff_commit.go:294-361 | A handoff is cancelled exactly before its decision, naming the grant if there is one |
| AccountProtocol.PrepareClosureIff | internal/paymentstore/cloud_closure.go:54-128 | A closure begins exactly on an active, unfenced account of its owner, with a revocation to acknowledge for every subject |
| AccountProtocol.RevokeIff | internal/paymentstore/cloud_closure.go:196-242 | A revocation is acknowledged once, by its subject's task |
| AccountProtocol.CloseIff | internal/paymentstore/cloud_closure.go:449-521 | An account is closed exactly by an unretired command naming the settlement of a ready closure |
| AccountProtocol.ClosureSettlementIff | internal/paymentstore/cloud_closure.go:295-367 | A closure settlement is recorded exactly by a current report without negative counts, with what the store itself knows |
| AccountProtocol.InitializeIff | internal/paymentstore/handoff.go:37-114 | The first period is given once; the same request may be repeated |
| AccountProtocol.RecreateIff | internal/paymentstore/cloud_creation.go:43-97 | Creating an account again succeeds exactly as a replay and changes nothing |
| AccountProtocol.EndAbortIff | internal/paymentstore/handoff_commit.go:363-415 | A cancelled handoff is released under its cancellation while the source is responsible |
| AccountProtocol.RetireIff | internal/paymentstore/cloud_closure_retirement.go:26-90 | A closing command is retired exactly before it closed |
| AccountProtocol.CancelIff | internal/paymentstore/cloud_closure.go:523-610 | A closure is cancelled exactly while it is prepared, and released under its cancellation |
| AccountProtocol.HandoffRepeats | internal/paymentstore/handoff_commit.go:234-361 | Preparing, settling, deciding and aborting again: no effect for the call on record, refusal for another |
| AccountProtocol.OutcomeRepeats | internal/paymentstore/handoff_commit.go:39-232 | Finalizing and authorizing again: no effect for the call on record, refusal for another |
| AccountProtocol.ReleaseRepeats | internal/paymentstore/handoff_commit.go:363-415 | Releasing again: no effect for the call on record, refusal for another |
| AccountProtocol.ClosureRepeats | internal/paymentstore/cloud_closure.go:54-521 | Preparing a closure, closing and retiring again: no effect for the call on record, refusal for another |
| AccountProtocol.CancellationRepeats | internal/paymentstore/cloud_closure.go:523-610 | Cancelling and releasing again: no effect for the call on record, refusal for another |
| AccountProtocol.ClosureSettlementRepeats | internal/paymentstore/cloud_closure.go:295-367 | A repeated closure settlement has no effect |
| AccountTopUps.QueryCoversDay | internal/paymentstore/ledger.go:219-314 | The store's count and sum since the day start bound those of the day itself |
| AccountTopUps.RunStaysWithinLimits | internal/paymentstore/ledger.go:219-314 | With fixed limits every billing day of every run stays within the attempt and amount limits, for any clock |
| AccountTopUps.StepBirth | internal/payment/policy.go:56-85 | A step creates an automatic top-up only by a debit that takes the balance below the threshold of a valid, enabled, armed policy, with nothing open and the cooldown over; it disarms the policy |
| AccountTopUps.RunKeepsOneOpenAuto | internal/paymentstore/ledger.go:219-314 | In every reachable state at most one automatic top-up is open |
| AccountPolicy.RunCountsLosses | internal/paymentstore/intents.go:188-224 | Through any run that does not set the policy: while its generation lasts and none of its top-ups succeeds, the failure count is exactly the number lost, and at three the policy is off |
| AccountPolicy.RunStaysOff | internal/payment/policy.go:56-85 | A policy that is off stays off and no automatic top-up is born until it is set again |
| AccountPolicy.ThirdLossSwitchesOff | internal/paymentstore/intents.go:188-224 | After three losses of one generation with no success between them the policy is disabled and disarmed, for good until set again |
| AccountPolicy.RunKeepsLatch | internal/paymentstore/intents.go:188-224 | In every reachable state a policy with three failures or more is disabled |
| AccountEffects.TransferRetiresPolicy | internal/paymentstore/handoff_commit.go:219-221 | Any step that finalizes a handoff leaves no policy, or one disabled, disarmed and one generation on |
| AccountEffects.NoTopUpAfterTransfer | internal/paymentstore/handoff_commit.go:219-221 | After a finalization no automatic top-up is born until somebody sets a policy |
| AccountEffects.ClosureQuietsPolicy | internal/paymentstore/cloud_closure.go:54-128 | A step that opens a closure leaves no policy on or armed |
| AccountEffects.AutoTopUpIff | internal/paymentstore/ledger.go:219-314 | After a debit a top-up of exactly the policy's amount is created, through its method's provider, exactly when the policy wants one; otherwise nothing changes |
| AccountEffects.QueriesCount | internal/paymentstore/ledger.go:252-262 | The two daily queries count and sum exactly the automatic top-ups since the start, the lost ones left out of the sum |
| AccountEffects.DayIsUtc8 | internal/payment/time.go:12-16 | A billing day starts at midnight eight hours ahead of UTC and holds its instants |
| AccountEffects.BindsToOpenPeriod | migrations/052_provider_reversal_responsibility.sql:17-31 | A new payment is bound to the period that is open |
| AccountEffects.PostIff | internal/paymentstore/ledger.go:38-117 | A posting succeeds exactly when it is admissible and replays its entry or can write a new one; the new row says what was asked and the balance moves by exactly the amount |
| AccountEffects.CreditRearms | internal/paymentstore/ledger.go:316-353 | A credit re-arms an enabled policy whose threshold is reached, outside a fence, and calls attention off |
| AccountPayments.TransitionsAre | internal/payment/intent.go:15-43 | The transition graph has these edges and no others; outcomes are final and nothing returns to created |
| AccountPayments.TransitionIff | internal/paymentstore/intents.go:67-132 | A transition succeeds exactly along an edge with agreeing references and room for its credit; a success adds exactly the payment's amount in one entry |
| AccountPayments.SuccessSettles | internal/paymentstore/intents.go:133-187 | A success arms an enabled policy exactly at or above its threshold, sets the account active or wanting attention, and clears the failures of its own generation |
| AccountPayments.FailureSettles | internal/paymentstore/intents.go:188-224 | A loss is counted, disarms and at the third disables its own generation's policy, and attention is called for exactly then or when action is required |
| AccountPayments.DebitDisarms | internal/paymentstore/ledger.go:123-143 | A reversal debit disarms an armed policy and calls for attention |
| AccountPayments.TopUpIff | internal/paymentstore/customer.go:237-397 | A customer top-up succeeds exactly on an open, unfenced account with a usable method or hosted, and creates exactly the payment asked for |
| AccountPayments.NothingBornBehindFence | internal/paymentstore/handoff.go:222-234 | No step creates a payment while a handoff is live or a closure stands |
| AccountPayments.PolicySetIff | internal/paymentstore/policy.go:29-186 | Setting a policy takes its terms, arms it and starts a new generation without failures |
| AccountPayments.PolicyDropped | internal/paymentstore/customer.go:163-235 | Disabling retires an enabled policy and leaves a disabled one alone |
| AccountPayments.ChargeIff | internal/paymentstore/orchestration.go:145-168 | A first charge moves exactly a created payment, outside a fence, to processing |
| AccountPayments.ReferenceIff | internal/paymentstore/webhooks.go:79-96 | A webhook may note a reference where there is none, and nothing else |
| AccountPayments.ReversalRecordedOnce | internal/paymentstore/reversals.go:42-103 | A provider's event is recorded once; repeated it changes nothing, repeated differently it is refused |
| AccountPayments.ResolveIff | internal/paymentstore/reversals.go:249-292 | Resolving concerns only an event under review and records the resolution's evidence |
| AccountPayments.BindIff | internal/paymentstore/reversals.go:301-344 | A payment without a period may be given one, once |
| AccountExamples.HandoffFinalizes | internal/paymentstore/handoff_commit.go:39-232 | From a new account, preparing, settling, confirming twice, authorizing, deciding and finalizing all succeed, and the target opens with the confirmed balance |
| AccountExamples.ClosureCloses | internal/paymentstore/cloud_closure.go:54-521 | From a new account, preparing, settling and closing all succeed |
| AccountStore.Store.InsertLedgerEntry | internal/paymentstore/ledger.go:161-200 | Balance, row and projection change together or not at all |
| AccountStore.Store.AutoTopUpAfterDebit | internal/paymentstore/ledger.go:219-314 | Creates at most the one intent the policy decision allows, bound to the open period, and disarms the policy |
| AccountStore.Store.PostLedgerEntry | internal/paymentstore/ledger.go:38-117 | Is the posting step, rolled back whole on failure, and one more step of the object's run |
| AccountStore.Store.TransitionIntent | internal/paymentstore/intents.go:28-227 | Is the transition step: intent, credit, policy and account state together or not at all |
| AccountStore.Store.SettlePolicyAfterFailure | internal/paymentstore/intents.go:188-224 | Is the step's policy effect: a lost top-up of the current generation adds one failure, disarms, and from three on disables |
| AccountStore.Store.RecordProviderReversal | internal/paymentstore/reversals.go:42-103 | Is the reversal step: event with review, predecessor adjustment or debit, or nothing |
| AccountStore.Store.AllocateTx | internal/paymentstore/reversals.go:173-221 | Is the allocation step of one event |
| AccountStore.Store.FinalizeOwnershipHandoff | internal/paymentstore/handoff_commit.go:124-282 | Two transactions that may be cut between; without error the handoff is finalized and every opening balance is an agreed one; balance and ledger are untouched |
| AccountStore.Store.CloseCloud | internal/paymentstore/cloud_closure.go:449-521 | Is the closing step; a closed object has balance zero and no open intent |
| PriceBook.ScanOverlapping | internal/billingstore/pricing.go:236-264 | The row scan reaches the same verdict in every row order |
| PriceBook.AtMostOneCandidate | internal/billingstore/pricing.go:350-379 | Selecting a version never sees two candidates |
| PriceBook.GaplessSelection | internal/billingstore/pricing.go:350-379 | From the first published start on, every instant has exactly one version |
| PriceBook.ActivateIff | internal/billingstore/pricing.go:134-315 | A version is published exactly when it is a fit draft, no published one lies ahead, and the open end, if any, is earlier, the approved base and without invoices from the cut on |
| PriceBook.SelectIff | internal/billingstore/invoices.go:104-110 | Preparing remembers exactly the version that covers the period start |
| PriceBook.IssueIff | internal/billingstore/invoices.go:196-280 | Issuing writes the remembered start and version once per period |
| PriceBook.ScanFindsOpenEnd | internal/billingstore/pricing.go:236-282 | A successful scan finds the one open end, or none in an empty book, so the gap check never decides |
| PriceBook.ActivateKeepsChain | internal/billingstore/pricing.go:134-315 | Activation keeps the intervals a gapless, non-overlapping chain with one open end |
| PriceBook.RunKeepsLaws | internal/billingstore/pricing.go:134-315 | So does every run, and every issued or prepared invoice is rated with the version effective at its start |
| PriceBook.IssuedInvoiceKeepsItsVersion | internal/billingstore/invoices.go:42-280 | No later activation changes the version effective at an issued invoice's period start |
| PriceBook.SuccessorTakesOver | internal/billingstore/pricing.go:134-315 | A run with two versions and an invoice that keeps the first |
| PricingStore.Store.ActivePricingVersion | internal/billingstore/pricing.go:350-379 | Returns the selection; its conflict exit is unreachable |
| PricingStore.Store.ActivatePricingVersion | internal/billingstore/pricing.go:134-315 | Is the activation step and keeps chain and ratings |
| PricingStore.Store.SelectVersion | internal/billingstore/invoices.go:42-117 | Takes the shared lock with the version that stays effective until the invoice is issued |
| PricingStore.Store.IssueInvoice | internal/billingstore/invoices.go:196-280 | Issues at most one invoice per period with the selected version and releases the lock |
| PeriodClose.RunKeepsCloseLaw | internal/billingservice/service.go:70-131 | Through any attempts, crashes and account operations: one invoice per period, invoiced periods exactly the closed ones, links point at the invoice's own debit |
| PeriodClose.SettledOnce | internal/billingservice/service.go:70-131 | An invoice is its period's only one, at most one entry has its key, and settled with a positive total it has its debit of exactly that total |
| PeriodClose.PrepareMeans | internal/billingstore/invoices.go:81-280 | A period without invoice gets one of exactly the rated total and is closed, or is marked incomplete, or nothing changes |
| PeriodClose.RecordMeans | internal/billingstore/invoices.go:501-548 | Recording settles that invoice alone and keeps its first ledger id |
| PeriodClose.SettledHasNothingToLink | internal/billingservice/service.go:112-117 | In reachable worlds the second half of the recording condition never decides |
| PeriodClose.RunKeepsDebits | internal/paymentstore/ledger.go:68-82 | If nobody else posts in the invoice scope, every entry there is an invoice's debit of exactly its total |
| PeriodClose.ForeignPostIff | internal/paymentstore/ledger.go:38-117 | A foreign posting in that scope keeps the law exactly when it is a replay or matches an existing invoice |
| PeriodClose.ForeignDebit | internal/paymentstore/ledger.go:38-117 | A concrete accepted posting in the invoice scope, with no invoice, that breaks the law |
| PeriodClose.ProgramKeepsBooks | internal/api/internal_billing_debits.go:64-71 | In every run whose postings are the program's own, books, credits and invoice debits are all exact, with no further assumption |
| PeriodClose.PeriodCloses | internal/billingservice/service.go:70-131 | A run that issues, debits and settles an invoice |
| BillingService.Service.PrepareInvoice | internal/billingstore/invoices.go:81-280 | The period's invoice, or a new one together with the closed period, or an incomplete period, or nothing |
| BillingService.Service.RecordInvoiceSettlement | internal/billingstore/invoices.go:501-548 | Settles the invoice; the first ledger id sticks |
| BillingService.Service.ClosePeriod | internal/billingservice/service.go:70-131 | An attempt that returns an invoice has settled the period's only invoice, with exactly its debit, however many attempts died before |
| PaymentJobs.ClaimPaymentJobs | internal/paymentstore/orchestration.go:26-70 | Leases only rows that were due or had a stale lease, leaves every other row alone, and takes all it found up to the batch limit |
| PaymentJobs.RunKeepsLaw | internal/paymentstore/orchestration.go:79-383 | Over every interleaving: one charge attempt per intent, one owner per attempt, digest before sending, recovery says Unknown |
| PaymentJobs.ChargedAtMostOnce | internal/paymentservice/service.go:144-233 | The provider's Charge is called at most once per intent, across lease theft, crashes, recovery and retries |
| PaymentJobs.FinalizedAtMostOnce | internal/paymentstore/orchestration.go:251-383 | Each attempt is finalized at most once, its row keeps that result, and recovery only ever records Unknown |
| PaymentJobs.UnsentMeansNeverCharged | internal/paymentservice/service.go:144-233 | An intent whose charge attempt was closed without sending is never charged, before or after |
| PaymentOutcomes.BeginIff | internal/paymentstore/orchestration.go:79-215 | A charge begins exactly for a leased charge job of a created intent, outside a handoff, with a live method; a query exactly for another job of an intent that may have been sent; an open attempt is recovered instead |
| PaymentOutcomes.AnswerMeans | internal/paymentservice/service.go:180-198 | A report is taken at its word, a failed query is Unknown, a failed charge means what its error says |
| PaymentOutcomes.PrepareMeans | internal/paymentservice/service.go:173-233 | Which attempts are sent, which fail unsent, and that the digest is on record before sending |
| PaymentOutcomes.RecoverMeans | internal/paymentservice/service.go:159-171 | Recovery sends nothing and says Unknown once the digest is on record |
| PaymentOutcomes.CallMeans | internal/paymentservice/service.go:178-198 | The call logs one event of its kind and goes on with what the answer means |
| PaymentOutcomes.CloseIff | internal/paymentstore/orchestration.go:251-383 | When closing works, and that attempt, intent, log and job then agree |
| PaymentOutcomes.UnknownIsFollowed | internal/paymentstore/orchestration.go:341-366 | Any step that closes an attempt as Unknown leaves a reconciliation of its intent open |
| PaymentOutcomes.ClaimMeans | internal/paymentstore/orchestration.go:26-70 | A job is leased only if it was due or its lease had gone stale |
| PaymentOutcomes.LeaseholderOnly | internal/paymentstore/orchestration.go:385-415 | Completing and putting back a job are for the holder of its lease alone |
| PaymentJobs.ChargeGoesThrough | internal/paymentservice/service.go:144-233 | A run that charges an intent once and settles it |
| PaymentService.Service.BeginProviderAttempt | internal/paymentstore/orchestration.go:79-215 | Is the begin transaction: new attempt, incomplete attempt to recover, not actionable or refused |
| PaymentService.Service.SetAttemptRequestDigest | internal/paymentstore/orchestration.go:217-234 | Marks an open attempt once; a second mark fails |
| PaymentService.Service.FinalizeProviderAttempt | internal/paymentstore/orchestration.go:251-383 | Attempt, intent and jobs change together; a completed attempt is left alone |
| PaymentService.Service.ProcessJob | internal/paymentservice/service.go:144-198 | The call is a run of its own worker's steps and leaves nothing in flight |
| RetentionFence.FrontierBounds | internal/rawretention/store.go:537-544 | The frontier is the largest completed sequence number |
| RetentionFence.CompleteTiles | internal/rawretention/store.go:616-669 | Completing the operation that starts past the frontier extends the tiling |
| RetentionFence.RunKeepsFence | internal/rawretention/store.go:451-669 | In every reachable state at most one operation is unresolved and starts just past the frontier, completed ranges tile 1..frontier without gap or overlap, no operation under way overlaps an active hold, and holds wait only for an overlapping one |
| RetentionFence.NeverAcceptedOverHold | internal/rawretention/store.go:529-536 | No step accepts an operation over an unreleased overlapping hold |
| RetentionFence.HeldIsNeverRetired | internal/rawretention/store.go:282-386 | While a hold is active nothing in its range is retired, whatever follows |
| RetentionAcceptance.AcceptIff | internal/rawretention/store.go:475-554 | Under the lock a plan is accepted exactly when it is new and its policy is active and approved, its clearance stands and covers it, every consumer proved, no number of it is held, nothing is under way and it is next in line |
| RetentionAcceptance.RunAcceptsOnlyAcceptable | internal/rawretention/store.go:451-554 | In every run nothing comes under way that was not acceptable at that moment |
| RetentionAcceptance.RevokedForGood | internal/rawretention/store.go:252-280 | Once a clearance is revoked no run accepts an operation under it again |
| RetentionAcceptance.RunKeepsOutcomes | internal/rawretention/store.go:616-669 | In every reachable state an outcome is what its receipt says |
| RetentionAcceptance.OverlapsIff | internal/rawretention/store.go:282-286 | A hold overlaps a plan exactly when a sequence number is in both |
| RetentionAcceptance.ResolveSettlesHolds | internal/rawretention/store.go:655-661 | A resolution gives every waiting hold the status it waited for |
| RetentionAcceptance.HoldIff | internal/rawretention/store.go:305-386 | When a hold is placed or released, and with which status |
| RetentionAcceptance.HeldNumbersStay | internal/rawretention/store.go:282-386 | While a hold is in force none of its sequence numbers is retired |
| RetentionAcceptance.ClearanceIff | internal/rawretention/store.go:201-280 | When a clearance is put on file or revoked |
| RetentionAcceptance.ActivationIff | internal/rawretention/store.go:153-199 | Activating needs an approval and leaves exactly that policy active |
| RetentionAcceptance.GatherIff | internal/rawretention/store.go:451-480 | When a request gathers proofs outside the lock |
| RetentionAcceptance.AbortIff | internal/rawretention/store.go:568-614 | What an abort does to an unknown, a known and a different plan |
| RetentionAcceptance.ResolveIff | internal/rawretention/store.go:616-669 | An outcome is recorded once with the status it stands for; another one is refused |
| RetentionAcceptance.PolicyIff | internal/rawretention/store.go:79-151 | A policy's terms and approval, once given, are not changed |
| RetentionFence.RetirementCompletes | internal/rawretention/store.go:451-669 | A run that retires a range while a late hold waits and then holds |
| RetentionStore.Store.SetActive | internal/rawretention/store.go:153-199 | Is the activation step: one active policy at most, with recovery approval |
| RetentionStore.Store.PutHold | internal/rawretention/store.go:305-345 | Is the hold step: active, or pending behind an overlapping fence |
| RetentionStore.Store.ReleaseHold | internal/rawretention/store.go:347-386 | Is the release step: released, or pending behind an overlapping fence |
| RetentionStore.Store.CheckProofs | internal/rawretention/store.go:513-517 | Checks proof i against consumer i; the index is in range however long ago the proofs were gathered |
| RetentionStore.Store.AcceptGathered | internal/rawretention/store.go:475-554 | Is the acceptance step under the lock |
| RetentionStore.Store.RequestAbortPlan | internal/rawretention/store.go:568-614 | Is the abort step: binds a cancellation, or keeps the fence until an outcome |
| RetentionStore.Store.ResolveObserved | internal/rawretention/store.go:616-669 | Is the resolution step: first receipt wins and waiting holds settle |

## Left out

- HTTP handlers, routing, authentication, PDF and email rendering, provider adapters: no property here needs them; provider and collector answers are arbitrary inputs.
- Cryptography and JSON encoding: digests stand for what they digest; archive and proof signatures are flags an input sets.
- Audit rows, activity rows, listings, pagination, billing profile contents and tenant visibility: they would only add easy members.
- Calendar arithmetic: month starts are inputs; the billing day is fixed at UTC+8.
- IssueInvoice and SettleInvoice of internal/billing/invoice.go, UpcomingPricingVersion, PutUsageFact and OTA seal and grant checks: easy members; their refusals appear as the inputs `Rating` and `reviewed`.
- Accounts in currencies other than the settlement currency, and uniqueness of ids across accounts: one account at a time is modelled.
- Database triggers other than the one that binds a new payment to the open responsibility period: the model relies on what the Go code checks and on unique keys.
- Retention scope equality, policy digest arguments and the detail of validProof: one scope is modelled, and a proof carries a validity flag next to the consumer it names.
- Payment method and consent contents: whether a method is active and capable is an input of each call, so that finalizing a handoff also revokes methods and consents and resets the billing profile is not modelled.
- Update in place and aliasing: the account operations that AccountStore does not repeat as methods (initializing, preparing, settling, confirming, authorizing and aborting a handoff; preparing, settling, revoking, retiring and cancelling a closure; top-ups and policies) are modelled on values only.
- DraftInvoice.BuildDraftInvoice: which error a failing input reports may depend on the order of facts that fail for different reasons; only success and the invoice are specified.
- PaymentService.Service.ProcessJob: one call is sequential; concurrency is in the interleavings of PaymentJobs.
- BillingService.Service.ClosePeriod: the document step that follows settlement is not modelled.
- BillingService.Service.PrepareInvoice: pricing, OTA, usage and profile checks enter as one input, the rating, because each only refuses; what rating computes is DraftInvoice.
- PaymentJobs.ClaimPaymentJobs: the due order among claimable rows is not modelled, because rows locked elsewhere are skipped and any unlocked rows may be the ones found.
