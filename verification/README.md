# FireISP in Dafny

FireISP runs small internet providers: it bills them, issues their fiscal documents (CFDI), provisions their
routers and keeps the accounts of their sessions. This project models the parts of it that are protocols and
ledgers, and proves what they promise over every run. `dafny verify dfyconfig.toml` checks all of it.

## Layout

Each component is a specification on values (the transactions as functions on the rows), an imperative class that
performs the same transactions in place as the source does and is proved equal to the specification, and lemmas on
the specification: an invariant that every step keeps, and the theorems that follow from it.

- `common`: options, minimum and maximum.
- `fiscal_store`, `fiscal_protocol`, `fiscal_safety`, `fiscal_theorems`, `fiscal_requests`, `fiscal_late`: the
  durable jobs with leases and fencing, the documents, and the external stamping service (PAC), as a transition
  system. Any worker may pause between two transactions for any time, or die; a request on the wire may reach the
  service at any later moment; the clock only moves forward. A `ResponseError` on a stamp call means that it was not
  stamped. An issuing request reads its document, looks for active jobs, and saves and queues in separate steps,
  since it holds no lock that a worker takes; the invoice's lock keeps two requests for one document apart. A run is
  *in time* when each request that saves a draft finds the row still a draft or rejected. `fiscal_requests` holds
  what needs no such condition, `fiscal_late` what a save does that comes too late, and `fiscal_results` what each
  transaction leaves on the rows. `prepare_credit_document` changes
  the rows as `prepare_document` does.
- `calendar`, `ledger_*`: the prepaid ledger of one customer, whose transactions run one at a time under the
  customer's lock, in integer cents. `ledger_model` holds the rows, the sums and the operations, `ledger_book` the
  loops, and the other files the joint invariant, its preservation and its consequences.
- `journal_records`, `journal_replay`, `journal_backup`, `journal_results`, `accounting_merge`, `accounting_results`:
  RADIUS accounting (RFC 2866 sections
  5.1 to 5.5, gigawords of RFC 2869 sections 5.1 and 5.2): the byte-level record reader, the replay cursor, the
  session rows as a join over packets, and the cut of the journal in a backup.
- `provisioning*`: applying a plan to a router with a journal of intents, cut anywhere, and its rollback.
- `node_lease`, `node_safety`, `node_results`: the lease of a network node, the jobs run under it, and the two writes that end a job
  outside any claim: a verification that misses resources, and the command of an outage drill.
- `suspension`, `suspension_results`: proposals, reviews, applications and releases of a suspension for nonpayment.
- `entitlements`, `access_results`: the online authorization, the snapshot for outages, and the addresses both rest on.
- `business_days`, `working_days`, `pricing`: working days, and the split of a price into subtotal and tax.

Beside the theorems over whole runs, the `*_results` files say of each main transaction, on the rows themselves and not
through the specification, when it is accepted and what it leaves.

## What the proofs found

The code was followed wherever it and its own words differ; each of these is a lemma with a concrete input, beside
the exact condition under which the promise holds.

- A document is stamped once in every run in time (`OneStampPerDocument`), but nothing enforces that:
  `prepare_document` reads the row without a lock and later saves it as a draft. Such a save keeps one stamp exactly
  when the row is still a draft or rejected (`SecondStampExactlyWhen`); a run from an empty installation in which the
  document is stamped in between, and stamped again, is `SecondStamp`.
- An interrupted network job waits for a review, yet a reviewed job need not start: a verification fails the router's
  newest apply job, whatever its status, when it misses a journaled resource. Starts and reviews agree exactly when
  that never happened while the job was waiting (`StartsAreReviewed`, `ReviewWithoutStart`), and a running job can end
  outside its claim in this way too (`OnlyItsClaimEnds`).
- A rollback compares a whole menu of settings, so when the operator resets one of two values that FireISP set, the
  other is left behind (`UndoneExactly`, `SiblingIsLeftBehind`); menus that the operator never edited come back in
  full (`UndoRestoresSettings`).
- The refund error speaks of a balance "effectively collected", but `issue_credit_memo` does not bound credits by
  the total: refunds can exceed the money collected exactly when the credits exceed the total (`RefundsStayWithinMoney`).
- The backup freezes the journal "at a complete detail-record boundary". It never cuts a record, but a blank line
  with other whitespace than spaces and tabs ends a record only for the reader (`LeavesNoRecordExactlyWhen`,
  `VerticalTabLeftBehind`).
- "Intent is durable before the remote mutation" holds for the router, not for the server side, which survives one
  cut (`HostSurvivesExactlyWhen`).
- An approved suspension is refused once the end of service has changed, but acts again when a reversal brings back
  exactly the end it was given for, and only then (`MovedNeverSuspends`, `ApprovalSuspendsExactlyWhen`,
  `OnlyItsOwnEndRevives`, `ReversalRevivesApproval`).
- The tax rate read back from rounded amounts is the plan's exactly when the rounding excess is at most half the
  subtotal, so always above one peso and the rate, and it can be lost below (`RateReadBack`, `RateIsExact`,
  `SmallSubtotalsLoseTheRate`).
- A packet dated up to five minutes ahead is dated by its arrival, so only packets that are not ahead of the clock
  are independent of it (`FutureDependsOnArrival`).

## Model

| member | source | states |
|---|---|---|
| FiscalStore.FiscalDatabase.Queue | fiscal/jobs.py:31-80 | Queueing for a document either adds one queued job, or answers with the active job for the same operation and payload, or is refused with nothing changed; the job answered with is active and is for that document and operation. |
| FiscalStore.FiscalDatabase.GetOrCreate | fiscal/services.py:302-304 | The request gets a copy of the document's row, which is created as an empty draft if it is missing; nothing else changes. |
| FiscalStore.FiscalDatabase.SaveFrom | fiscal/services.py:309-315 | A copy without a request, or in error, makes the row a draft without one, whatever the row says by then; the stamp and every other row stay. |
| FiscalStore.FiscalDatabase.ClaimRow | fiscal/jobs.py:83-94 | A claim succeeds exactly on a queued job that is due; it counts one attempt, stores a new token and a lease, and touches nothing else. |
| FiscalStore.FiscalDatabase.SignUnder | fiscal/jobs.py:97-108 | Under a standing claim only, a draft without a request gets its signed request once; an existing one is kept. |
| FiscalStore.FiscalDatabase.BeginStamp | fiscal/services.py:323-337 | The first stamping transaction: refused without a standing claim, without a request, or when a stamp may be out and this is not a recovery; otherwise the document is submitting. |
| FiscalStore.FiscalDatabase.FinishStamp | fiscal/services.py:338-364 | The second stamping transaction: only under a standing claim, success stores the stamp, a definitive rejection of a stamp call gives error, and anything else uncertain. |
| FiscalStore.FiscalDatabase.BeginCancellation | fiscal/services.py:367-386 | Only a stamped document without standing dependents becomes cancel-pending, and only under a standing claim. |
| FiscalStore.FiscalDatabase.FinishCancellation | fiscal/services.py:387-406 | After the cancellation call only a definitive rejection changes the status, back to stamped. |
| FiscalStore.FiscalDatabase.FinishRow | fiscal/jobs.py:154-165 | The job's result is recorded exactly when its claim still stands; a failure with the document in doubt asks for review. |
| FiscalStore.FiscalDatabase.RecoverExpired | fiscal/jobs.py:174-205 | The recovery loop over the selected ids is the one-job recovery of each in turn, and the answer counts the jobs it recovered. |
| FiscalSafety.SoleClaim | fiscal/jobs.py:65-94 | Two standing claims on one document are the same claim. |
| FiscalSafety.QueueKeepsInv | fiscal/jobs.py:31-80 | Queueing keeps the protocol invariant. |
| FiscalSafety.IssueNewKeepsInv | fiscal/services.py:302-304 | The first request for a document, which creates its row and queues its job, keeps the protocol invariant. |
| FiscalSafety.IssueKeepsInv | fiscal/views.py:105-116 | Saving and queueing keep the protocol invariant whatever was read, as long as the row is still a draft or rejected, even while a job is active for it. |
| FiscalSafety.ClaimKeepsInv | fiscal/jobs.py:83-94 | Claiming keeps the protocol invariant. |
| FiscalSafety.SignKeepsInv | fiscal/jobs.py:97-108 | Signing keeps the protocol invariant. |
| FiscalSafety.SubmitKeepsInv | fiscal/services.py:326-337 | Starting a call keeps the invariant: nothing else was out for the document, so the new call is its only live one. |
| FiscalSafety.PacKeepsInv | fiscal/services.py:338-341 | The stamping service acting on a request on the wire, at any later time, keeps the invariant. |
| FiscalSafety.WriteBackKeepsInv | fiscal/services.py:346-364 | Writing back what the worker learned keeps the invariant, with or without a standing claim. |
| FiscalSafety.BeginCancellationKeepsInv | fiscal/services.py:367-386 | Starting a cancellation keeps the invariant. |
| FiscalSafety.WriteCancellationKeepsInv | fiscal/services.py:387-406 | Writing back a cancellation keeps the invariant. |
| FiscalSafety.StatusReplyKeepsInv | fiscal/services.py:409-422 | Confirming a cancellation keeps the invariant. |
| FiscalSafety.FinishKeepsInv | fiscal/jobs.py:154-165 | Recording a job's result keeps the invariant. |
| FiscalSafety.CrashKeepsInv | fiscal/jobs.py:131-171 | A worker that dies anywhere keeps the invariant. |
| FiscalSafety.RecoveryKeepsInv | fiscal/jobs.py:174-205 | Recovering an expired job keeps the invariant: the interrupted claim falls before its document is marked. |
| FiscalSafety.StepKeepsInv | fiscal/jobs.py:31-205 | Every step of every worker, of the stamping service, of the clock, of the recovery pass and of a request in time keeps the invariant. |
| FiscalSafety.RunKeepsInv | fiscal/jobs.py:31-205 | The invariant holds after every interleaving in time, of any length. |
| FiscalRequests.RunKeepsBase | fiscal/jobs.py:31-205 | Over every run, with late saves as well, one job per document is active, a token names one job, and attempts are bounded. |
| FiscalTheorems.OneStampPerDocument | fiscal/services.py:323-364 | In every interleaving in time the stamping service never holds two stamped CFDIs of one document. |
| FiscalTheorems.DocumentTellsTheTruth | fiscal/services.py:309-354 | In every run in time a document that says it is stamped carries a stamp the service really made; a draft, a rejected document, or one without a request has nothing out that was or can be stamped. |
| FiscalTheorems.CallOnlyAfterRejection | fiscal/services.py:326-337 | In every run in time a call starts only from draft or error, and only after every earlier call for the document was definitively rejected. |
| FiscalRequests.OneWriterPerDocument | fiscal/services.py:32-45 | In every run, in time or not, at any instant one job per document is active, at most one worker passes the fence of a document, and a job whose worker passes it cannot be recovered. |
| FiscalTheorems.OnlyWritersChange | fiscal/services.py:32-45 | A document changes only by the save of a request that has read it and asks for a draft, under its fence, or by recovering its expired job. |
| FiscalTheorems.WriteBackSeesOwnDocument | fiscal/services.py:338-364 | In every run in time a write-back that passes the fence sees exactly the document its own first transaction left, whatever happened in between. |
| FiscalTheorems.StampSurvivesEveryRun | fiscal/services.py:323-364 | In every run in time a stamped document keeps the same stamp for ever: it never goes back to draft, error or uncertain. |
| FiscalLate.StampLostExactlyWhen | fiscal/services.py:309-315 | A step unstamps a document exactly when it is the save of a draft that was read before the stamp and that the queue accepts. |
| FiscalLate.LateSaveDoubles | fiscal/services.py:305-315 | After a save over a document whose request was stamped or is on its way, a second CFDI can be stamped without any further late step. |
| FiscalLate.SecondStampExactlyWhen | fiscal/services.py:305-315 | With no active job, and with the request at the service if the row says that it may be, the save of a draft leaves one stamp in every continuation in time if and only if the row is still a draft or rejected. |
| FiscalLate.SecondStamp | fiscal/services.py:287-320 | A run from an empty installation in which only the last request is late, and two CFDIs of the document are stamped. |
| FiscalTheorems.InterruptionNeverResends | fiscal/jobs.py:184-193 | In every run in time, after an interruption a stamp is asked for again only when nothing was signed and nothing that was sent was or can be stamped. |
| FiscalRequests.RunCountsClaims | fiscal/jobs.py:83-94 | The attempts of a job are the times it was claimed along the run. |
| FiscalRequests.ClaimsAreBounded | fiscal/jobs.py:196 | In every run, in time or not, no job is ever claimed more than MAX_ATTEMPTS times. |
| FiscalResults.QueuedExactlyWhen | fiscal/jobs.py:65-80 | A job is added, waiting and due at once, if and only if the document is there, has no job that waits or runs, and suits the operation: no stamp in doubt, a request to look up, a stamp to cancel, query or print. |
| FiscalResults.AnsweredExactlyWhen | fiscal/jobs.py:65-80 | A request for a document that has a job is answered if and only if every such job is for the same operation and payload. |
| FiscalResults.RefusedWhy | fiscal/jobs.py:65-75 | Which refusal a request meets: no document, another operation under way, a stamp in doubt, a missing request or stamp, nothing to cancel. |
| FiscalResults.ClaimedExactlyWhen | fiscal/jobs.py:83-94 | A claim makes a waiting job that is due run under a new token, one attempt more and a lease; on any other row it changes nothing. |
| FiscalResults.ClaimLasts | fiscal/jobs.py:91 | However long the worker pauses, its claim stands for exactly 300 seconds, and the job can be recovered only after them. |
| FiscalResults.WorkRefusedWhy | fiscal/services.py:326-379 | Which refusal a worker's transaction meets: a claim that fell before anything else, then the document. |
| FiscalResults.SignedExactlyWhen | fiscal/jobs.py:97-108 | In every reachable state signing writes a request exactly under a standing claim on a draft without one; an existing request is kept. |
| FiscalResults.CallBeginsExactlyWhen | fiscal/services.py:326-337 | In every reachable state a call begins exactly under a standing claim, with a request, on a document neither stamped nor, unless it is a lookup, in doubt. |
| FiscalResults.AnswerWrites | fiscal/services.py:346-364 | A stamp is stored, a rejected stamp call leaves an error, anything else leaves doubt; without a standing claim nothing is written. |
| FiscalResults.CancellationBeginsExactlyWhen | fiscal/services.py:370-385 | A cancellation is asked for exactly under a standing claim, on a stamped document without standing dependents. |
| FiscalResults.CancellationWrites | fiscal/services.py:390-406 | Only a definitive rejection makes a document stamped again. |
| FiscalResults.ConfirmationWrites | fiscal/services.py:415-421 | Only a confirmation under a standing claim makes a document cancelled. |
| FiscalResults.FinishRecords | fiscal/jobs.py:154-165 | From every reachable state a worker whose claim stands records success if and only if it succeeded, review if and only if it failed with the document uncertain, submitting or pending cancellation, and failure otherwise; it gives up the lease and changes nothing else; a worker whose claim fell records nothing. |
| FiscalResults.RecoveredExactlyWhen | fiscal/jobs.py:176-203 | A job is recovered if and only if it runs and its lease has run out: it waits again unless it was claimed three times, a signed stamp becomes a lookup, a cancellation an enquiry, and a submitting document is in doubt. |
| FiscalResults.SavedExactlyWhen | fiscal/services.py:309-315 | A request saves the draft of a copy without a request or in error, together with the job the queue gives it, or nothing. |
| FiscalResults.LostIsReviewed | fiscal/jobs.py:154-165 | From every reachable state, an answer that is lost ends in doubt and review, with request and stamp kept. |
| FiscalResults.DecidedEnds | fiscal/services.py:338-364 | A call that the service stamps ends in a stamped document and a success, one that it rejects in an error and a failure. |
| FiscalResults.LookupEnds | fiscal/services.py:338-364 | A lookup that finds the request stores its stamp and succeeds; one that is refused leaves doubt and asks for review. |
| FiscalResults.CancellationEnds | fiscal/services.py:386-406 | In every run in time an accepted cancellation succeeds with the document pending, a rejected one fails with it stamped again, a lost one is for review. |
| Calendar.MonthLengths | billing/services.py:31 | The lengths of the months, of every year: 31 and 30 days in turn, beginning again in August, and February by the Gregorian leap rule. |
| Calendar.AnniversaryInverse | billing/services.py:28-31 | Every anniversary is a real date, and the month count of `create_period` is the exact inverse of `anniversary`. |
| Calendar.AnniversaryInjective | billing/services.py:28-31 | Different month counts give different anniversaries. |
| Calendar.AnniversaryOrder | billing/services.py:28-31 | Anniversaries are ordered exactly as their month counts, past every month end. |
| Calendar.AnchoringMatters | billing/services.py:28-31 | Stepping on from an anniversary gives the anchored dates for all later months exactly when no short month has cut the day yet. |
| LedgerBook.PrepaidLedger.RefreshSubscription | billing/services.py:88-102 | The cursor loop stores the end of the walk over the subscription's invoices, and changes nothing else. |
| LedgerBook.PrepaidLedger.RefreshAffected | billing/services.py:123-124 | Refreshing the affected set gives the same rows in whatever order the set is taken. |
| LedgerBook.PrepaidLedger.PayInvoice | billing/services.py:111-121 | The inner loop, with its running remainder and its break, is the allocation of the payments in turn to what the invoice still owes. |
| LedgerBook.PrepaidLedger.AllocateCustomer | billing/services.py:105-124 | The nested loops are the allocation specification: every open invoice in order, then the end of every service touched. |
| LedgerBook.PrepaidLedger.Receive | billing/services.py:127-143 | A valid payment is added and allocated; an invalid amount changes nothing. |
| LedgerBook.PrepaidLedger.Reverse | billing/services.py:146-170 | A reversal reopens every invoice the payment reached and allocates again; one with a refund behind it is refused and changes nothing; a second one changes nothing. |
| LedgerBook.PrepaidLedger.ReopenTouched | billing/services.py:159-165 | The loop over the payment's allocations reopens exactly the invoices it reached that are not void, and collects their subscriptions. |
| LedgerBook.PrepaidLedger.IssueMemo | billing/services.py:240-259 | A credit memo is added, the invoice marked by its new balance and its subscription refreshed; a refusal changes nothing. |
| LedgerBook.PrepaidLedger.RecordRefund | billing/services.py:280-298 | A refund is recorded exactly when it fits both what is left of the memo and the invoice's credit balance. |
| LedgerBook.PrepaidLedger.BillPeriod | billing/services.py:39-59 | A period that is not a whole anniversary month is refused; an existing one is answered with; a new one is billed and allocated. |
| LedgerBook.PrepaidLedger.LiveCredit | billing/services.py:78 | The customer's credit is what the live payments still have. |
| LedgerBook.PrepaidLedger.Renew | billing/services.py:70-85 | A renewal is refused while the current month is owed or the credit is short, and otherwise bills the month after the last one. |
| LedgerInvariant.AllocationMoves | billing/models.py:45-55 | An allocation moves its amount from one payment to one invoice, and moves nothing else. |
| LedgerInvariant.OwedIsFiscal | fiscal/services.py:263-273 | An invoice that owes something had no refund, and its balance is its fiscal balance. |
| LedgerInvariant.PayFromEffect | billing/services.py:111-121 | An invoice takes what the payments have, up to what it owes; if it still owes something they have nothing left; no other invoice changes. |
| LedgerSettle.SettledEffect | billing/services.py:105-122 | After an allocation each invoice found open is paid or still owes, and no credit is left beside a debt. |
| LedgerSettle.OldestChargeFirst | billing/services.py:106-122 | Money reaches a charge only when every older open charge is settled. |
| LedgerSettle.OldestPaymentFirst | billing/services.py:108-119 | A payment is used for a charge only when every older payment is used up. |
| LedgerCoverage.ByStartSorted | billing/services.py:95 | The ordered query lists each wanted invoice once, by period start. |
| LedgerCoverage.WalkCovers | billing/services.py:94-98 | The refresh walk ends where the longest gap-free run of settled months from activation ends. |
| LedgerCoverage.RefreshedIsUpToDate | billing/services.py:88-102 | A refreshed subscription stores the end of its settled run. |
| LedgerCoverage.UpToDateIsRecomputed | billing/services.py:88-102 | A subscription whose stored end is right is left alone by a recomputation. |
| LedgerCoverage.CoverageGrows | billing/services.py:88-102 | When nothing settled becomes unsettled, the end of the settled run does not move back. |
| LedgerSafety.AllocateRestoresInv | billing/services.py:105-124 | Allocating and refreshing only the affected subscriptions restores the whole invariant. |
| LedgerSafety.ReceiveKeepsInv | billing/services.py:127-143 | A payment keeps the ledger invariant. |
| LedgerSafety.ReverseKeepsInv | billing/services.py:146-170 | A reversal keeps the ledger invariant. |
| LedgerOperations.MemoKeepsInv | billing/services.py:240-259 | A credit memo keeps the ledger invariant, although it allocates nothing and refreshes one subscription. |
| LedgerOperations.RefundKeepsInv | billing/services.py:280-298 | A refund keeps the ledger invariant, although it refreshes nothing. |
| LedgerOperations.CreateKeepsInv | billing/services.py:39-59 | Billing a period keeps the ledger invariant. |
| LedgerOperations.ActivateKeepsInv | core/services.py:31-53 | Activating a service keeps the ledger invariant. |
| LedgerHistory.StepKeepsInv | billing/services.py:39-298 | Every accepted transaction keeps the joint invariant, and a refused one changes nothing. |
| LedgerHistory.ReachableInv | billing/services.py:39-298 | In every reachable ledger an invoice is paid exactly when nothing is owed, no payment is spent and no memo refunded beyond its amount, debt and unspent credit never coexist, every invoice bills its own anniversary month, and each stored end of service is right. |
| LedgerHistory.StoredEndIsRecomputed | billing/services.py:88-102 | In every reachable ledger recomputing any subscription from scratch changes nothing: the incremental refresh agrees with the full one. |
| LedgerHistory.StepAppends | billing/models.py:58-77 | No transaction edits or removes an entry of the book: only statuses, reversal marks and stored ends change. |
| LedgerTheorems.CreditMeansNoDebt | billing/services.py:78-80 | Unspent live credit means that the customer has no open invoice. |
| LedgerTheorems.RenewalProposesItsPeriod | billing/services.py:81-85 | No renewal is refused for its period: the one it proposes is one `create_period` accepts. |
| LedgerTheorems.RenewalMakesNoDebt | billing/services.py:70-85 | Whenever a renewal succeeds, the invoice it answers with is fully paid on return and the customer owes nothing. |
| LedgerTheorems.BillingAnswersItsPeriod | billing/services.py:49-59 | Billing answers with the invoice of exactly the period asked for: the one already there with nothing changed, or one new invoice at the price. |
| LedgerTheorems.PeriodsTile | billing/services.py:45-48 | The billed months of a subscription are distinct, do not overlap, and meet exactly when they are consecutive. |
| LedgerTheorems.OnlyReversalShortens | billing/services.py:88-170 | No transaction but a reversal moves the end of a service back. |
| LedgerComplement.ComplementNeverExceeds | fiscal/services.py:263-274 | From no reachable ledger does a payment complement hit the error that it exceeds the fiscal balance; what it reports as paid is positive and within the balance it reports. |
| LedgerComplement.FiscalBalanceOnlyGrows | fiscal/services.py:263-273 | Later transactions never shrink the balance an allocation was made against. |
| LedgerComplement.ComplementsChain | fiscal/services.py:264-278 | In every reachable ledger consecutive partial payments chain: next number, and a previous balance that is what the one before left, unless a credit note came between. |
| LedgerComplement.ReachableRenewalMakesNoDebt | billing/services.py:70-85 | The renewal theorem from every ledger reachable from an empty book. |
| LedgerComplement.StepLeavesAlone | billing/services.py:105-170 | No transaction adds an allocation to an invoice that had a refund, or reverses a payment that was applied to it. |
| LedgerComplement.RefundCloses | billing/services.py:156-157 | An invoice that had a refund stays paid through any transaction: no allocation is added to it and no payment applied to it is reversed, so its paid amount stands. |
| LedgerComplement.RefundClosesForever | billing/services.py:156-157 | The same over every run: none of the allocations added is of that invoice, and none of its payments is reversed. |
| LedgerComplement.ReachableRefundCloses | billing/services.py:156-157 | The same from the moment an invoice of any reachable ledger has had a refund. |
| LedgerResults.RenewedExactlyWhen | billing/services.py:70-85 | In every reachable ledger a renewal is accepted if and only if the service is activated, neither pending nor cancelled, its latest period is not owed, and the price is an amount that the credit of the live payments covers, to the cent. |
| LedgerResults.RenewalAddsOne | billing/services.py:82-85 | An accepted renewal adds one invoice of that service, from the end of its latest period to the next anniversary, at the price asked, and pays it. |
| LedgerResults.BilledExactlyWhen | billing/services.py:39-59 | In every reachable ledger a period is billed if and only if the service is activated and not pending, the period runs from one anniversary to the next, and it was billed before or the price is an amount. |
| LedgerResults.BillingRefusedWhy | billing/services.py:43-52 | Which refusal billing meets, the first reason first. |
| LedgerResults.RenewalRefusedWhy | billing/services.py:74-85 | Which refusal a renewal meets, the first reason first. |
| LedgerResults.ReceivedExactlyWhen | billing/services.py:127-143 | A payment is taken if and only if it is an amount, and then recorded once. |
| LedgerResults.ReversedExactlyWhen | billing/services.py:146-170 | In every reachable ledger a first reversal is refused if and only if a credit memo of an invoice the payment was applied to was refunded; an accepted one marks that payment alone, and a repeated one changes nothing. |
| LedgerResults.CreditedExactlyWhen | billing/services.py:240-259 | In every reachable ledger a credit memo is issued if and only if the invoice is there and it is an amount, and is dated after everything before it. |
| LedgerResults.RefundedExactlyWhen | billing/services.py:280-298 | A refund is recorded if and only if it fits what is left of its memo and what the invoice was paid and credited beyond its total and earlier refunds. |
| LedgerResults.MoneyRefusedWhy | billing/services.py:127-298 | Which refusal a payment, a reversal, a credit memo and a refund meet. |
| LedgerResults.ActivatedExactlyWhen | core/services.py:31-53 | A service is activated if and only if it is not cancelled and, the first time, the price is an amount; it then has one invoice, from that day to its first anniversary. |
| LedgerResults.BuiltExactlyWhen | fiscal/services.py:259-273 | In every reachable ledger a complement is built if and only if the payment stands and the complements and credit notes before it are stamped. |
| LedgerResults.FirstComplement | fiscal/services.py:263-276 | The first partial payment of an invoice has number one and starts from its total less what was credited by then. |
| LedgerMoney.MoneyIsConserved | billing/models.py:45-99 | In every reachable ledger the live payments add up to what the invoices were paid plus the available credit, with every part within its bounds. |
| LedgerMoney.StepReceives | billing/services.py:127-170 | A payment brings in its amount, a reversal takes back that of its payment, and no other transaction moves money in or out. |
| LedgerMoney.StepCredits | billing/services.py:240-298 | A credit memo credits its amount to its invoice, a refund refunds its amount there, and no other transaction credits or refunds. |
| LedgerMoney.RefundBound | billing/services.py:293-296 | Refunds of an invoice stay within paid plus credited minus total. |
| LedgerMoney.RefundsStayWithinMoney | billing/services.py:240-298 | Refunds can exceed the money collected on an invoice exactly when its credit notes add up to more than its total. |
| LedgerMoney.RefundedWithoutPaying | billing/services.py:240-298 | A run from an empty book: a service activated at 100 and its charge credited by 500 gets 400 refunded though nothing was paid. |
| JournalRecords.LineEnd | deploy/network/accounting_replay.py:195 | A bounded line ends after its first line feed, or at the bound or the end of the file. |
| JournalRecords.JournalStream.Block | deploy/network/accounting_replay.py:191-205 | The reading loop answers the record, the end, an unfinished record or the size error that the byte specification gives, and leaves the stream right after the record. |
| JournalRecords.RecordsAreBlocks | deploy/network/accounting_replay.py:191-262 | The records of a file are exactly what repeated reads give, each from where the last ended. |
| JournalRecords.RecordStands | deploy/network/accounting_replay.py:191-205 | A record once read, and a size error once met, is read the same after any append, even one in the middle of a line. |
| JournalRecords.RecordsAppend | deploy/network/accounting_replay.py:191-205 | Appending only adds records at the end. |
| JournalRecords.SplitResumes | deploy/network/accounting_replay.py:233-262 | From the end of any record, after any appends, reading gives exactly the remaining records of reading from zero. |
| JournalResults.ReadsRecord | deploy/network/accounting_replay.py:191-205 | A record of lines of at most 4096 bytes, 32768 with the empty line that ends it, is read exactly as it was written. |
| JournalResults.StopsWhere | deploy/network/accounting_replay.py:191-205 | Without a line feed ahead reading stops at an error exactly for more than 4096 bytes, or more than 32768 with what was gathered, at the end exactly where nothing is left, and at an unfinished record otherwise. |
| JournalResults.ReadsBack | deploy/network/accounting_replay.py:191-205 | A journal written record by record is read back: the same records, in order, and nothing else. |
| JournalResults.ResumedExactlyWhen | deploy/network/accounting_replay.py:233-238 | A saved place is taken up if and only if it is of the same file, within it, with the same 128 bytes before it. |
| AccountingMerge.AccountingEndpoint.Account | network/views.py:192-246 | The endpoint's row update: which packets are confirmed, refused or in conflict, and the joined row; a refusal changes nothing. |
| AccountingMerge.MergeReflects | network/views.py:222-245 | Confirming a packet adds exactly it to the set of packets whose join the table is. |
| AccountingMerge.MergeAgain | network/views.py:222-245 | A packet the table already reflects changes nothing. |
| AccountingMerge.OnlyTheSetMatters | network/views.py:222-245 | Two tables that reflect the same packets are equal. |
| AccountingMerge.AnyOrder | network/views.py:222-245 | Order, duplication and arrival times of the deliveries do not matter, only which packets arrived. |
| AccountingMerge.NothingUndone | network/views.py:226-245 | Over any deliveries, accepted or not, counters never decrease, start and stop times never grow, and a stop is never undone. |
| AccountingMerge.FutureDependsOnArrival | network/views.py:216-219 | What a packet does is independent of its arrival time, for every table, if and only if it is not dated after it. |
| AccountingResults.AnsweredExactlyWhen | network/views.py:200-225 | A packet is refused if and only if a name, a counter, the delay or the time of the event is out of bounds, and conflicts if and only if its session is another user's. |
| AccountingResults.FirstPacket | network/views.py:214-245 | A new session's row has the stamp less the delay as its time, or the arrival if that lies ahead, and octets plus gigawords of two to the thirty-two as its counters. |
| AccountingResults.LaterPacket | network/views.py:226-245 | A later packet keeps the first start and stop, and the greatest time and counters. |
| AccountingResults.RetransmissionIsTheSame | network/views.py:214-219 | The same packet sent later, with its stamp and delay as much later, gives the same answer and table from every table, whenever the two arrive, and changes nothing after the first. |
| AccountingResults.DelayMovesBack | network/views.py:216 | One more second of delay moves the event one second back. |
| JournalReplay.AccountingReplay.ReplayOnce | deploy/network/accounting_replay.py:224-265 | One pass over a file is a number of posts in a row, each with its cursor saved, within the limit and the deadline; without backlog or error nothing is left to read, and an error means an oversized record or one that is not confirmed. |
| JournalReplay.AppendKeepsPlace | deploy/network/accounting_replay.py:234-240 | Appending never makes a pass fall back to zero: the saved offset and its anchor still fit. |
| JournalReplay.StepKeepsInv | deploy/network/accounting_replay.py:207-272 | Appends, posts, crashes between confirmation and cursor save, and lost cursors keep the replay invariant. |
| JournalReplay.NothingSkipped | deploy/network/accounting_replay.py:233-262 | Over every run reading goes on at a record boundary with every earlier record confirmed. |
| JournalReplay.CaughtUpTable | deploy/network/accounting_replay.py:233-262 | When a pass finds nothing more, every record was confirmed, and the table is the join of what it held before and exactly the journal's packets. |
| JournalReplay.HistoryDoesNotMatter | deploy/network/accounting_replay.py:207-272 | Two histories of the same journal, whatever crashes, repeats and resets they had, end in the same table. |
| JournalReplay.ReplayFinishes | deploy/network/accounting_replay.py:224-265 | Replay makes progress: from any moment of any history, if every record parses to a packet the endpoint takes and no session is named with two users, as many posts as there are records left reach the end, with the table of exactly the old packets and the journal's. |
| JournalReplay.RestoreLosesNothing | deploy/backup.py:147-156 | A snapshot taken before the journal was archived, restored with an empty cursor and replayed to the end, gives the table the live system has when caught up with that journal. |
| JournalBackup.FreezePrefix | deploy/backup.py:132-144 | The search of the tail: the cut, or the error for an oversized unfinished record. |
| JournalBackup.CompletePrefix | deploy/backup.py:132-144 | The cut lies within the file and leaves at most one maximal record after it. |
| JournalBackup.PrefixCovers | deploy/backup.py:132-144 | Although only the last 64 KiB are searched, with matches that do not overlap, the cut comes after the start of every plain blank line. |
| JournalBackup.CutsNoRecord | deploy/backup.py:132-144 | The archived prefix cuts no record: its records and the ones after the cut are all of them. |
| JournalBackup.LeavesNoRecordExactlyWhen | deploy/backup.py:132-144 | The cut leaves no complete record behind exactly when a plain blank line follows the content of the last record. |
| JournalBackup.VerticalTabLeftBehind | deploy/backup.py:139 | Whatever the record, one that a vertical tab ends is whole for the reader and is exactly what the backup leaves behind. |
| JournalBackup.StartLeftBehind | deploy/backup.py:139 | The start of a session, with every attribute the parser asks for, is such a record. |
| ProvisioningJob.Provisioner.CreateOwned | network/services.py:109-116 | The intent is journaled before the row is added; the job may be cut between the two. |
| ProvisioningJob.Provisioner.SetGlobals | network/services.py:138-143 | The change of a settings menu is journaled once, with the reviewed values, before it is made. |
| ProvisioningJob.Provisioner.ApplyPlan | network/services.py:85-147 | An attempt cut after any number of durable effects is that many actions of the plan's script, or none when the router is no longer the reviewed one. |
| ProvisioningJob.Provisioner.RollbackJob | network/services.py:150-167 | A rollback cut after any number of steps is that many undo steps of the journal in reverse. |
| ProvisioningUndo.ScriptIntendsFirst | network/services.py:109-143 | Every effect of an attempt on the router comes right after its own intent. |
| ProvisioningUndo.AddedRows | network/routeros.py:121-138 | Creating adopts the marked row or adds one, and touches no row of others. |
| ProvisioningComplete.AddedOnce | network/routeros.py:121-138 | Creating leaves its marker exactly once, adopted or new, and every other marker as often as it was. |
| ProvisioningComplete.CompletedAttempt | network/services.py:109-143 | An attempt that runs to its end leaves each resource of the plan exactly once and each changed setting as wanted, whatever earlier attempts had left. |
| ProvisioningOrder.CreatedWhere | network/routeros.py:127-138 | A resource whose marker is absent goes first if it asks to be placed before the others and last otherwise, with the old rows in their order, unless another row has its name; one whose marker stands once is adopted. |
| ProvisioningOrder.CompletedLayout | network/services.py:109-137 | After a completed attempt on a router without FireISP's rows, the rows of others stand, in their order, between the rows created in front, the last one first, and the rest in the order of the plan. |
| ProvisioningOrder.FrontsComeFirst | network/services.py:109-137 | Every row created in front stands before every row of others, and every other one after them. |
| ProvisioningUndo.WithoutKeepsUnowned | network/routeros.py:140-141 | Removing a marker touches no row of others. |
| ProvisioningUndo.StepKeepsInv | network/services.py:85-167 | Whatever FireISP does and wherever it is cut, only the operator changes the rows of others, and every marked row is in the journal. |
| ProvisioningUndo.MarkedIsJournaled | network/services.py:109-116 | At every moment of every run each row with a FireISP marker is in the journal. |
| ProvisioningUndo.UndoneRows | network/services.py:150-156 | A completed rollback removes exactly FireISP's rows and leaves the others in their order. |
| ProvisioningUndo.UndoRestoresRows | network/services.py:150-156 | After any attempts and rollbacks, each cut anywhere, a completed rollback gives back the original rows one by one. |
| ProvisioningUndo.UndoLeavesOthers | network/services.py:150-156 | With an edit by the operator in between, exactly the operator's rows are left. |
| ProvisioningSettings.UndoRestoresSettings | network/services.py:138-163 | After any attempts and rollbacks, each cut anywhere, and any edits of the operator in other menus, a completed rollback gives each menu that the operator never edited its original settings. |
| ProvisioningSettings.UndoneExactly | network/services.py:156-161 | At the end of any run, with any edits, a completed rollback gives a setting its reviewed value when every value FireISP set in its menu still stands, and otherwise leaves it as it is. |
| ProvisioningSettings.SiblingIsLeftBehind | network/services.py:156-161 | With both values of a menu set by FireISP and one reset by the operator, the other stays as FireISP set it. |
| ProvisioningSettings.OperatorSettingSurvives | network/services.py:156-161 | At the end of any run a completed rollback preserves a menu exactly when its values are no longer what FireISP set. |
| ProvisioningSettings.HostSurvivesExactlyWhen | network/services.py:105-107 | Over every run the server side survives a completed rollback if and only if it is prepared and not journaled; from a fresh job, if and only if it is prepared and nothing at all is journaled. |
| ProvisioningSettings.HostSurvivesOneCut | network/services.py:105-107 | For the first attempt of a job: it survives if and only if that attempt was cut between the two. |
| NodeLease.NodeDatabase.Acquire | network/execution.py:98-106 | A lease is granted exactly when none is held; it takes the next generation. |
| NodeLease.NodeDatabase.Check | network/execution.py:48-56 | The check passes only on the same connection, for the newest token and generation, before expiry, and then extends the lease. |
| NodeLease.NodeDatabase.Release | network/execution.py:114-116 | Only the owner of the row clears it. |
| NodeLease.NodeDatabase.Start | network/services.py:298-310 | A job starts exactly when it is pending and its router is not stopped. |
| NodeLease.NodeDatabase.Commit | network/services.py:355-360 | A result is recorded exactly when the job is still running under the claim that started it. |
| NodeLease.NodeDatabase.RecoverInterrupted | network/execution.py:128-136 | The recovery fails every job left running by another executor, except a recent drill, stops their routers, and answers how many. |
| NodeLease.NodeDatabase.Retry | network/services.py:365-381 | A failed job is pending again exactly when the node is free and no job of its router shows as running. |
| NodeLease.NodeDatabase.Save | network/services.py:177-180 | A verification that misses resources, like a drill's command, changes the status of a job and nothing else, whatever its claim. |
| NodeLease.NodeDatabase.PrepareDrill | network/management/commands/network_lab_fallback.py:48-52 | A drill is created running, started once and without a claim, exactly when no laboratory test of its router runs. |
| NodeSafety.StepKeepsInv | network/execution.py:41-136 | Every step of every executor, of a verification, of a drill and of the operator keeps the lease invariant. |
| NodeSafety.OneExecutor | network/execution.py:48-56 | At no time do two executors pass the lease check; the one that does has the newest generation and the advisory lock. |
| NodeSafety.SupersededForever | network/execution.py:48-56 | An executor whose lease was replaced never passes again. |
| NodeSafety.OnlyItsClaimEnds | network/services.py:355-360 | A running job ends only by the lease that started it, by the recovery of a later generation, which stops its router, or, with the router left running, by a verification that found this apply job incomplete or by the command that read this drill. |
| NodeSafety.RecoveryLeavesNone | network/execution.py:128-136 | After a recovery no job of an older generation runs, but for a drill begun in the last ten minutes. |
| NodeSafety.StartsAreReviewed | network/services.py:293-314 | Over every run a job starts once, and once more for each review, less the times that a verification or a drill's command ended it while it was waiting: at most that often, exactly that often if and only if this never happened, and at least once before it ends. |
| NodeSafety.ReviewWithoutStart | network/services.py:173-180 | A run from an empty node in which an apply job is reviewed and failed by a verification before it starts again. |
| NodeSafety.BlockedUntilReview | network/services.py:298-310 | A stopped router stays stopped until a review: none of the jobs it has starts. |
| NodeSafety.RunningHoldsReviews | network/services.py:371-379 | As long as a job runs, over any steps, no job of its router is reviewed, and a stopped router stays stopped. |
| NodeSafety.QuarantineIsFinal | network/services.py:355-360 | An executor whose job a recovery took from it records no result for it in any later run, however often it is reviewed and started again. |
| NodeResults.AcquiredExactlyWhen | network/execution.py:87-106 | The node is given if and only if nobody holds the advisory lock or a reservation; the lease is the next generation, for 300 seconds. |
| NodeResults.CheckedExactlyWhen | network/execution.py:48-56 | The check passes if and only if connection, token and generation are the executor's own and the reservation has not run out, and then extends it. |
| NodeResults.LeaseLasts | network/execution.py:50-53 | A lease passes its check for exactly 300 seconds, and for 300 more after each check that passed. |
| NodeResults.ReleasedExactlyWhen | network/execution.py:112-118 | An executor that ends clears the row if and only if it is its own. |
| NodeResults.StartedExactlyWhen | network/services.py:298-310 | A job starts if and only if it waits and its router is not stopped, under a lease whose connection stands, and counts one attempt. |
| NodeResults.CommittedExactlyWhen | network/services.py:358-360 | A result is recorded if and only if the job still runs under the lease's token and generation. |
| NodeResults.RecoveredExactlyWhen | network/execution.py:128-136 | A recovery fails exactly the jobs that run under another token or none and are no drill of the last ten minutes, and stops exactly their routers. |
| NodeResults.RetriedExactlyWhen | network/services.py:365-379 | A review makes a job wait again if and only if it failed, no reservation of the node stands and no job of its router runs. |
| NodeResults.DrilledExactlyWhen | network/management/commands/network_lab_fallback.py:48-52 | A drill is prepared if and only if no laboratory test or drill of its router runs. |
| BusinessDays.NextOrdinal | compliance/services.py:87 | Stepping one day adds one to the proleptic Gregorian ordinal. |
| BusinessDays.MondayIsMonday | compliance/services.py:67-69 | The computed date is a Monday, and the one of that number in its month. |
| WorkingDays.KnownMonday | compliance/services.py:67-69 | 1 January 2024 was a Monday. |
| WorkingDays.WeekdaysInOrder | compliance/services.py:80-90 | The weekdays follow each other from day to day, past every month, year and leap day. |
| WorkingDays.WorkingExactlyWhen | compliance/services.py:72-88 | A day works exactly as an entry for it says, and without one if and only if it is Monday to Friday and none of the eight statutory days, given by month and day or by Monday of the month. |
| BusinessDays.WeekHasWork | compliance/services.py:72-90 | Beyond the last override every seven days hold a working day. |
| BusinessDays.WorkAhead | compliance/services.py:80-90 | However the finite calendar is overridden there is a working day ahead: the loop ends. |
| BusinessDays.AddBusinessDays | compliance/services.py:80-90 | The loop ends and answers the deadline; a negative count is refused. |
| BusinessDays.DeadlineIsLeast | compliance/services.py:80-90 | The deadline is the least date with exactly that many working days after the start, and is itself one when any is asked for. |
| BusinessDays.DeadlinesAdd | compliance/services.py:80-90 | So many working days and then more are their sum. |
| Pricing.SplitAddsUp | billing/services.py:52-56 | Subtotal and tax add up to the total, the tax is not negative, and the subtotal is the nearest cent. |
| Pricing.RateReadBack | fiscal/services.py:240 | For a whole-percent rate and any subtotal, the rate read back is the plan's if and only if the rounding excess is at most half the subtotal, and half only under an even rate. |
| Pricing.PositiveSubtotal | billing/services.py:52-53 | Every positive price, at any rate up to one hundred percent, has a positive subtotal. |
| Pricing.RateIsExact | fiscal/services.py:240 | Above one peso and the rate, the rate read back is always the plan's. |
| Pricing.SmallSubtotalsLoseTheRate | fiscal/services.py:240 | Three cents at sixteen percent lose the rate, and at one hundred percent the bound is sharp. |
| Suspension.SuspensionDesk.Propose | billing/services.py:324-341 | A proposal keeps the end of service it saw, and is made exactly when nothing but network health could hold a suspension back. |
| Suspension.SuspensionDesk.Review | billing/services.py:344-356 | The first decision stands. |
| Suspension.SuspensionDesk.Apply | billing/services.py:359-388 | One application per proposal, which suspends exactly when nothing holds it back and the end of service is still the one it saw. |
| Suspension.SuspensionDesk.Resume | billing/services.py:391-403 | A suspended service that is paid ahead is active again and its latest open application released. |
| SuspensionSafety.StepKeepsInv | billing/services.py:301-403 | Every transaction keeps the suspension invariant. |
| SuspensionSafety.SuspensionsAlternate | billing/services.py:359-403 | Over every run the suspensions and releases of a service alternate; a suspended service has one open application, an active one none, and none has two. |
| SuspensionSafety.SuspendedAndReleased | billing/services.py:324-403 | The whole way: an overdue service that nothing holds is suspended by an approved proposal, and active again with the suspension released once it is paid ahead. |
| SuspensionSafety.TriedOnce | billing/services.py:364-366 | A proposal once tried never acts again, in any run. |
| SuspensionSafety.MovedNeverSuspends | billing/services.py:374-375 | Once the end of service is not the one an approval was given for, earlier or later, the approval suspends in no run in which no refresh stores exactly that end again. |
| SuspensionSafety.ApprovalSuspendsExactlyWhen | billing/services.py:364-380 | From every reachable desk an untried approval for a service that nothing holds suspends it if and only if the end of service is the one it was given for; either way it never acts again. |
| SuspensionSafety.OnlyItsOwnEndRevives | billing/services.py:88-102 | With an approval in hand, a refresh makes it suspend if and only if it stores the end the approval was given for. |
| SuspensionSafety.ReversalRevivesApproval | billing/services.py:374-375 | Two runs from an empty desk: with the end moved on a month the approval does nothing; moved on and back it suspends. |
| SuspensionResults.ProposedExactlyWhen | billing/services.py:301-341 | A proposal is made if and only if the service is active, installed and past its grace, with neither a billing dispute nor an outage. |
| SuspensionResults.ReviewedExactlyWhen | billing/services.py:344-356 | Only the first decision on a proposal is recorded; the same again is accepted, the opposite refused. |
| SuspensionResults.AppliedExactlyWhen | billing/services.py:359-388 | From every reachable desk an untried approval suspends if and only if the service is active and installed, its end of service is the one approved and past its grace, there is neither a dispute nor an outage, the network is healthy, and staff or the automatic policy asks; otherwise a blocked application is recorded. |
| SuspensionResults.NotAppliedOtherwise | billing/services.py:364-369 | A proposal that is not approved, or was tried before, does nothing. |
| SuspensionResults.RefreshedExactlyWhen | billing/services.py:391-403 | A new end of service makes a suspended service active again if and only if it lies ahead, and then releases the application that suspended it and no other. |
| Entitlements.SameAddresses | network/services.py:22-27 | The web and the agent reserve the same addresses and ports, for the same routers. |
| Entitlements.AddressesApart | network/services.py:22-27 | No two routers share a tunnel address, a gateway, a pool address or a port. |
| Entitlements.RouterAddressInjective | network/views.py:159-164 | A tunnel address names one router. |
| Entitlements.BuildSnapshot | network/services.py:434-450 | The loop publishes exactly the entries of the specification, or nothing when there are too many. |
| Entitlements.RadiusCache.SyncEntitlements | deploy/network/agent.py:280-322 | The whole file is replaced or, on any fault, nothing is; the generation moves exactly when the contents do. |
| Entitlements.OnlineIs | network/views.py:159-187 | The online decision is the one on the user's own credential and its own router. |
| Entitlements.LookupIs | deploy/network/agent.py:280-322 | The cached file answers for a user as that user's credential was published, until it expires. |
| Entitlements.OfflineAgrees | network/views.py:167-187 | From the moment it is published and while the database stays as it is, the published list grants exactly what the online decision grants, with the same password and rates. |
| Entitlements.SyncedAgrees | deploy/network/agent.py:280-322 | After a synchronization the cached file agrees with the online decision if and only if the agent accepted the list, or the file it kept agreed already. |
| Entitlements.AcceptedExactlyWhen | deploy/network/agent.py:281-302 | The agent accepts a published list if and only if every entry in it is well formed: users are never published twice. |
| AccessResults.AddressesAre | network/services.py:22-27 | Router by router, the addresses of 10.253.0.0/16 and 10.254.0.0/16 and the ports that are reserved, for the numbers 1 to 4095. |
| AccessResults.GrantedExactlyWhen | network/views.py:159-187 | A user is granted access if and only if an enabled, unexpired credential of that name on the router that asks has a service of the router's organization that is active, or pending while it is put into service, or needs none; with its password and its service's rates. |
| AccessResults.PublishedExactlyWhen | network/services.py:434-450 | A credential is published if and only if its router is in use on the node and it would be granted access. |
| AccessResults.SnapshotExactlyWhen | network/services.py:449-450 | The list is published, whole, if and only if it has at most 25000 entries. |
| AccessResults.FileGrantsExactlyWhen | deploy/network/agent.py:305-310 | The file grants exactly what the user's line says, to the address of the router it names, until it expires. |
| AccessResults.WellFormedExactlyWhen | deploy/network/agent.py:288-304 | The agent takes an entry if and only if name, password, router and rates are within their bounds and characters. |

## Left out

- FiscalStore.FiscalDatabase.Queue: does not model request keys, profile verification jobs and the checks of the cancellation payload, which are single-call gates.
- FiscalStore.FiscalDatabase.SaveFrom: keeps the request, the status and the stamp of a document, not its payment method and form nor the gates on them.
- FiscalResults.FinishRecords: reads the document's status when the result is recorded; the source reads it just before, which is the same row in every run in time while the claim stands.
- FiscalSafety.StepKeepsInv: covers the paths that carry a claim; management commands that call the services without one bypass the fence and are not part of this model.
- FiscalLate.SecondStampExactlyWhen: leaves open a save over a document in doubt none of whose calls reached the service, and one made while another job is active; the direction that keeps one stamp covers both.
- FiscalSafety.PacKeepsInv: the PAC is an abstract step with three outcomes; SOAP, XML, certificates and PDF rendering are foreign libraries.
- LedgerHistory.StepKeepsInv: does not model idempotency keys, which make a repeated call answer with the first result; amounts are integer cents and dates are local dates without time zones.
- FiscalStore.FiscalDatabase.BeginCancellation: the query for standing complements and credit notes is a flag.
- LedgerBook.PrepaidLedger.Receive: does not model the idempotency key, the method and the reference of a payment.
- LedgerBook.PrepaidLedger.IssueMemo: does not model the source key that makes a repeated call answer with the first memo.
- Suspension.SuspensionDesk.Propose: does not model the idempotency key of a proposal.
- Entitlements.RadiusCache.SyncEntitlements: does not model the byte bound and the rendering of the file.
- LedgerBook.PrepaidLedger.RefreshSubscription: stores the end of service as a date; the time of day, and the release of a suspension that follows, are in the suspension component.
- LedgerBook.PrepaidLedger.BillPeriod: takes the plan's price as a parameter and keeps the total of an invoice, not its subtotal and number.
- LedgerTheorems.RenewalMakesNoDebt: speaks of ledgers without void invoices, which is every reachable one, since no transaction of the source makes an invoice void.
- AccountingMerge.AccountingEndpoint.Account: the framed address and the terminate cause are last-writer fields and the replay time is a receipt, so none of them is in the joined row; the source's refusal of a malformed framed address, which returns after the row of a new session was created and so leaves that row, is not modelled (the journal's parser lets no such address through); the router of a packet is taken as found.
- AccountingMerge.AnyOrder: speaks of packets that are not dated after their arrival and that agree on the user of each session, as the journal's do.
- JournalReplay.AccountingReplay.ReplayOnce: models one journal file, with the parser of a record as a parameter and the fifteen-second deadline as a number of records; a digest stands for the bytes it is taken of, and inode numbers are not reused.
- ProvisioningJob.Provisioner.ApplyPlan: the snapshot digest stands for the rows and the settings; the secrets, the agent's configuration call, readiness marks and the fixed list of resources are not part of this model.
- NodeSafety.OneExecutor: fences the database; a remote command already under way when a lease is lost cannot be called back, as the source says.
- BusinessDays.AddBusinessDays: years are not bounded, where Python stops at 9999.
- Pricing.SplitAddsUp: quotients are exact, where Python's decimals have 28 digits; a quotient by at most 2000 is never that close to a tie.
- Entitlements.OfflineAgrees: takes the file server to match a line by user and source address and to stop at its expiry; the byte bound and the rendering of the file are not part of this model.
- The grammar of a detail record, the HTTP transport, file locks and the atomic replacement of the cursor file: plumbing around the cursor.
- The bank statement import, cash closure, outage credit arithmetic, forms, consent and privacy requests: easy gates.
- The row locks: each transaction is one step under its customer's, job's, document's or node's lock, except an issuing request, which reads its document without one.
