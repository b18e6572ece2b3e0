# Verified model of the order and income back end

A Dafny model of the parts of this back end in which money, evidence files and their audit trail can go
wrong: a crash-recovery protocol, a transactional outbox, cent-exact apportionment, numbering under a lock,
a payment ledger with its triggers, and the data migrations that other queries later audit. Each area is
modelled as the code does it, and its properties are stated for every input, every run or every reachable
state. `dafny verify dfyconfig.toml` checks the project. Nothing was executed.

| file | models |
|---|---|
| `EvidenceRecovery.dfy` | payment-evidence upload recovery: rows, leases, files and workers as one state machine with an atomic step per await |
| `EvidenceSafety.dfy`, `EvidenceResults.dfy` | its invariant, and the guarantees over every interleaving, crash and delay |
| `EvidenceEffects.dfy` | what each step does to rows, tables and files, field by field |
| `EvidenceOutcome.dfy` | how a recovery ends when nobody disturbs it, read off the tables and files |
| `EvidenceService.dfy` | the recovery service's own loops, interleaved with any other workers |
| `Outbox.dfy`, `OutboxPublisher.dfy` | concurrent publishers with locked batches, rollback, back-off, dead letters and manual retries |
| `OutboxEffects.dfy` | when event rows change and to what, and the back-off written out |
| `Apportionment.dfy` | the largest-remainder split of an imported subtotal |
| `ImportNumbering.dfy` | correlatives of imported orders under a transaction-scoped advisory lock, and the import loop |
| `Ledger.dfy` | the waterfall backfill, its audits, and the newest-first release when an order total is corrected |
| `OperationReferences.dfy`, `OperationAcceptance.dfy` | the triggers that reserve operation numbers across payments and refunds, and exactly which writes they accept |
| `CompanyScope.dfy` | giving every sale order its company, against the audit queries |
| `AssetMigration.dfy` | the two-phase copy of the legacy asset tree |
| `Equivalences.dfy` | the two direction-flipping migrations and the triggers between them |
| `Receivers.dfy` | validate-all-then-apply reconciliation of payment receivers |
| `Payables.dfy` | payable balances and the allocations inserted by the next migration |
| `Sums.dfy`, `Selection.dfy` | sums of sequences; ORDER BY with LIMIT |

## How to read the model

- **Evidence recovery.** A worker holds the row as its claim returned it and moves through stages, one per
  await; between two awaits any other step can happen, and a worker may outlive its lease or stop for good
  at any point. The start state asks for what the schema and the upload path give: unique evidence keys,
  unique (payment, uploader, idempotency key) per operation, and storage keys no two operations share. The
  digest is an arbitrary function; where equality of bytes is claimed, injectivity is a stated premise. The
  payment row lock makes persisting one atomic step. The advisory lock and the in-process flag are modelled
  in `RunOnce` but no safety result uses them.
- **Outbox.** An emission is a log entry that survives rollback, a row update is not. The machine starts
  from an empty table. `firstFailure`, `published` and `used` are bookkeeping of the model.
- **Amounts** are integer cents and quantities integer hundredths; order totals may be negative where the
  code does not rule it out.
- **Operation references.** `owners` and `edges` are bookkeeping: every payment that ever held a number and
  every correction ever written. Normalisation is an arbitrary function.
- **Asset migration.** The file system is a finite map from absolute paths to entries in which only
  directories have entries below them. The two roots are apart, and no symbolic link lies on the way to
  either root. One copy is assumed to be atomic, so that a run stopped between steps leaves a tree between
  the start and the merged tree; a file cut off halfway would be a conflict for the next run.
- **Import numbering.** A wait for the advisory lock ends with the holder's commit or abort; that it ends is
  assumed.

Results where the code does less than one might expect, with the exact condition:

- The leftover of the apportionment is smaller than the number of nonzero remainders only when there is a
  nonzero remainder; otherwise both are zero (`Apportionment.LeftoverBelowRemainders`).
- The duplicate check of the receiver file compares spellings while the database compares uuids, so two
  spellings of one id can carry different targets and the last one wins. The order of the file is
  irrelevant exactly when mappings of one payment agree (`Receivers.OrderFreeIffConsistent`,
  `Receivers.CaseVariantsSlipThrough`).
- The chain of payments that owned a number is a chain of corrections as written. The column shows it
  throughout a run exactly when no accepted write gives an owner that took the number over another
  correction; clearing the column is accepted (`OperationReferences.ChainIsStored`,
  `OperationReferences.OwnerMayDropItsCorrection`).
- Reversing the restore migration is the identity exactly when no row started out from its base unit
  (`Equivalences.DownUndoesUp`).
- A reconciled payable balance is consistent exactly when its total is not negative
  (`Payables.ReconciledBalances`).
- A published event can have gone out more than once. It went out exactly once if and only if no transaction
  that had marked it rolled back and no attempt at it failed after going out
  (`OutboxSafety.EmittedExactlyOnce`, `OutboxSafety.RollbackCanRepeatAnEmission`).
- A recovery that nobody disturbs succeeds exactly under the conditions of `EvidenceOutcome.ForeseenIs`.

## Model

| member | source | states |
|---|---|---|
| EvidenceSafety.NextKeeps | src/modules/income/infrastructure/income-evidence-upload-recovery.service.ts:117-305 | Every atomic step of any worker (claim, each await, injected error, crash, clock tick, payment change) keeps the invariant over rows, workers, files, logs, attachments and attempts |
| EvidenceSafety.RunKeeps | src/modules/income/infrastructure/income-evidence-upload-recovery.service.ts:117-305 | The invariant holds in every state reachable from a start with the unique indexes in force, for any number of workers |
| EvidenceSafety.StoreOverwritesNothing | src/modules/income/infrastructure/income-evidence-upload-recovery.service.ts:178-189 | Moving or saving the staged bytes never replaces or loses a file outside staging, touches no other staging file, and leaves the verified bytes staged or at the promised private key |
| EvidenceResults.EffectsHappenAtMostOnce | src/modules/income/infrastructure/income-evidence-upload-recovery.service.ts:207-290 | Attachments, audit rows and outbox events that recovery wrote agree one to one; each operation has none or one of each, and none when its evidence was there from the start |
| EvidenceResults.OneActiveProofPerPayment | src/modules/income/infrastructure/income-evidence-upload-recovery.service.ts:240-263 | A payment never has two active proofs in any reachable state |
| EvidenceResults.ReplayChangesNoAttachment | src/modules/income/infrastructure/income-evidence-upload-recovery.service.ts:219-238 | Once an operation's evidence exists, superseded or not, no further await of any worker on it changes attachments, audit rows, outbox or log |
| EvidenceResults.HistoryIsPreserved | src/modules/income/infrastructure/income-evidence-upload-recovery.service.ts:172-204 | Along every run no file outside staging is lost or altered, no attachment is removed or changed except for getting a deletion date once, and a completed operation keeps its status and attachment; when a deletion date may be set is stated by EvidenceEffects.AttachmentsChangeOnlyByInsertion |
| EvidenceEffects.AttachmentsChangeOnlyByInsertion | src/modules/income/infrastructure/income-evidence-upload-recovery.service.ts:207-287 | Over every step of every run: attachments, audit rows, outbox and log stay as they are, or the step inserts the evidence of a pending payment of an active order that nobody had inserted. Then exactly the active PAYMENT_PROOF rows of that payment get a deletion date, which is that step's now, every other attachment stays, the new row carries the operation's fields, each log gains one row, the event names exactly the replaced rows, and the operation is completed with the new attachment |
| EvidenceEffects.DeletionsAreAnnounced | src/modules/income/infrastructure/income-evidence-upload-recovery.service.ts:240-281 | Over every run an attachment is deleted at the end exactly when it was so at the start or an event of the run names it as replaced |
| EvidenceEffects.RowsChangeOnlyByTheirWorker | src/modules/income/infrastructure/income-evidence-upload-recovery.service.ts:117-303 | Over every step of every run an operation row changes only by a claim of a claimable row (Failed resumes as Promoted or Staged, lease five minutes ahead, one attempt more), by a checkpoint while its lease is live, by completion with an attachment of the same evidence, content and key, or by a release, which drops the lease of a row that is not completed; each case names its exact fields and all other rows stay |
| EvidenceEffects.FilesChangeOnlyByStoring | src/modules/income/infrastructure/income-evidence-upload-recovery.service.ts:178-189 | Files change only when a worker stores bytes it has read: the staging file is renamed, or without a move a new file is saved under a private key that was free |
| EvidenceEffects.OutsideChangesOnlyBySteps | src/modules/income/infrastructure/income-evidence-upload-recovery.service.ts:56-115 | Time passes only by ticks, a payment changes only by its own step, a failed await leaves its worker failing and a crash removes it; no other worker is touched |
| EvidenceResults.NoFileIsLost | src/modules/income/infrastructure/income-evidence-upload-recovery.service.ts:152-205 | Whatever is interrupted, bytes that were staged and match size and digest stay under a key the row records or promises or an attachment names; with a collision-free digest they are the same bytes |
| EvidenceResults.InsertedEvidenceIsVerified | src/modules/income/infrastructure/income-evidence-upload-recovery.service.ts:253-287 | Every attachment recovery inserted describes its operation's file and points to existing bytes that pass the recorded size and digest; the proofs its outbox event names as replaced are superseded ones of the same payment |
| EvidenceResults.ClaimsAreBoundedAndPaced | src/modules/income/infrastructure/income-evidence-upload-recovery.service.ts:117-150 | An operation is claimed at most as often as its five attempts allow, claims of one operation are five minutes apart even after a stale release, and no worker ever holds a FAILED row |
| EvidenceService.ClaimsTakeEffect | src/modules/income/infrastructure/income-evidence-upload-recovery.service.ts:131-146 | The claim statement leases and counts exactly the selected rows and hands each to its own worker entry; other rows stay |
| EvidenceOutcome.ForeseenIs | src/modules/income/infrastructure/income-evidence-upload-recovery.service.ts:152-238 | From the tables and files alone: an undisturbed claim recovers exactly when the digest is recorded, the size is a positive safe integer, every recorded key lies in the order's directory of its area, the promised key holds matching bytes or is free with matching staged bytes that can be stored under a live lease, the payment is eligible and no evidence is there yet; it replays exactly when the evidence there has the same content and key |
| EvidenceOutcome.QuietStep | src/modules/income/infrastructure/income-evidence-upload-recovery.service.ts:152-305 | Every undisturbed await keeps the foreseen outcome or ends with it |
| EvidenceOutcome.OthersStayForeseen | src/modules/income/infrastructure/income-evidence-upload-recovery.service.ts:84-111 | No await of one operation changes what is foreseen for a claim of another that has not begun |
| EvidenceService.OverIsAttributed | src/modules/income/infrastructure/income-evidence-upload-recovery.service.ts:84-111 | An own await inserts evidence exactly when it ends the claim as recovered |
| EvidenceService.StillJustified | src/modules/income/infrastructure/income-evidence-upload-recovery.service.ts:84-111 | What an outcome entitles the caller to believe survives every later step of any worker |
| EvidenceService.OwnPersistIsJustified | src/modules/income/infrastructure/income-evidence-upload-recovery.service.ts:86-89 | A persist that ended its claim completed the operation, and inserted evidence exactly when it reports recovered |
| EvidenceService.IncomeEvidenceUploadRecovery.ClaimRecoverableOperations | src/modules/income/infrastructure/income-evidence-upload-recovery.service.ts:117-150 | The claimed rows are the longest waiting ones by (updated_at, id) among the unlocked rows that are staged, promoted or failed with a file on record, under five attempts, quiet for five minutes and not leased, up to the limit; exactly they are leased and counted, with the status they resume from |
| EvidenceService.IncomeEvidenceUploadRecovery.RecoverOperation | src/modules/income/infrastructure/income-evidence-upload-recovery.service.ts:84-111 | Whatever other workers do in between, one claimed operation is over after at most nine awaits; it reports a recovery exactly when one of its own steps inserted the evidence with every effect of EvidenceEffects.AttachmentsChangeOnlyByInsertion, and undisturbed it ends exactly as foreseen from the tables and files |
| EvidenceService.IncomeEvidenceUploadRecovery.RecoverClaimed | src/modules/income/infrastructure/income-evidence-upload-recovery.service.ts:84-111 | The loop is a run of the protocol; recovered and failed count the outcomes, each worker inserted exactly when its outcome is a recovery, and undisturbed every operation ends as foreseen before the loop began |
| EvidenceService.IncomeEvidenceUploadRecovery.RecoverBatch | src/modules/income/infrastructure/income-evidence-upload-recovery.service.ts:79-115 | A batch claims the longest waiting claimable operations up to the limit, clamped to between 1 and 100; undisturbed, exactly those claimed are recovered whose file can be had, whose payment is pending in an active order and whose evidence was not there when the batch began, and exactly those replayed whose evidence was there with the same content and key |
| EvidenceService.IncomeEvidenceUploadRecovery.RunOnce | src/modules/income/infrastructure/income-evidence-upload-recovery.service.ts:56-77 | A run is skipped exactly when one is running or the advisory lock is taken, and changes nothing then; otherwise it is a batch of at most twenty operations with all that a batch promises |
| Selection.SelectOldest | src/modules/income/infrastructure/income-evidence-upload-recovery.service.ts:127-129 | ORDER BY age, id LIMIT n: the n oldest candidates in order, fewer only when there are no more |
| OutboxSafety.DelaysGrowToTheCap | src/modules/income/infrastructure/financial-outbox-publisher.service.ts:89 | Back-off delays never decrease with the attempts, start at 5 s and are capped at an hour from the tenth attempt on |
| OutboxSafety.RoundLength | src/modules/income/infrastructure/financial-outbox-publisher.service.ts:89-90 | The waits of a full round add up to 2555 s in the first round and 32400 s in every later one |
| OutboxSafety.RunKeeps | src/modules/income/infrastructure/financial-outbox-publisher.service.ts:60-102 | Every reachable state of concurrent publishers, rollbacks, arrivals, manual retries and clock ticks satisfies the outbox invariant |
| OutboxSafety.PublishedOnceByItsEmitter | src/modules/income/infrastructure/financial-outbox-publisher.service.ts:71-83 | An event is marked published exactly when one committed transaction did it; that transaction emitted the event, and no other committed one marked it |
| OutboxSafety.PublishedIsFinal | src/modules/income/infrastructure/financial-outbox-publisher.service.ts:65-82 | A published row never changes again, over any continuation of any run |
| OutboxSafety.RetryBudget | src/modules/income/infrastructure/financial-outbox-publisher.service.ts:85-93 | Over every run 10m <= attempts <= 10(m+1), and an unpublished event is dead-lettered exactly when attempts = 10(m+1) |
| OutboxSafety.DeadLettersAreLate | src/modules/income/infrastructure/financial-outbox-publisher.service.ts:86-92 | A dead letter comes at least 2555 s, in later rounds nine hours, after the first failure of its round |
| OutboxSafety.EventsOnlyAge | src/modules/income/infrastructure/financial-outbox-publisher.service.ts:60-102 | Along every run no event is removed or redated, and its attempts and manual retries never decrease |
| OutboxSafety.NothingWaitsLongerThanAnHour | src/modules/income/infrastructure/financial-outbox-publisher.service.ts:85-93 | In every reachable state each event is scheduled at most an hour ahead |
| OutboxSafety.CommitUsesBudget | src/modules/income/infrastructure/financial-outbox-publisher.service.ts:60-102 | Each committed transaction lowers the summed remaining attempts by at least one per processed event, and the sum stays nonnegative |
| OutboxSafety.OnlyArrivalsAndRetriesAddBudget | src/modules/income/infrastructure/financial-outbox-publisher.service.ts:60-102 | No step other than an arrival or a manual retry raises that sum |
| OutboxSafety.BudgetIsUsedUp | src/modules/income/infrastructure/financial-outbox-publisher.service.ts:60-102 | In every reachable state that sum is zero exactly when every event is published or dead-lettered |
| OutboxEffects.RowsChangeOnlyByOutcome | src/modules/income/infrastructure/financial-outbox-publisher.service.ts:60-102 | Over every step of every run a row changes only when its event arrives, due at once, when its dead letter is queued again, due at once with one more round, or when a transaction with it in its batch commits: then it is published at that transaction's start if that transaction is logged for it, and otherwise has one attempt more, is due again after 5, 10, 20, ... 2560, 3600 seconds by its attempts, and is dead-lettered from ten attempts a round on |
| OutboxEffects.FailuresBackOff | src/modules/income/infrastructure/financial-outbox-publisher.service.ts:85-93 | Over every run the k-th failure of a round makes the event due exactly 5, 10, ..., 2560 seconds (first round) or an hour (later rounds) after the failing transaction's start, and the tenth, no other, dead-letters it as of that start |
| OutboxEffects.BeginIs | src/modules/income/infrastructure/financial-outbox-publisher.service.ts:65-69 | A transaction begins exactly on at most a hundred distinct events that are unpublished, not given up, due by now and in no open batch |
| OutboxEffects.EmissionsAre | src/modules/income/infrastructure/financial-outbox-publisher.service.ts:71-85 | An event goes out exactly at a delivery or at a failure after going out, and it is the one at the transaction's position |
| OutboxSafety.EmissionsAreAccounted | src/modules/income/infrastructure/financial-outbox-publisher.service.ts:64-98 | Over every run the emissions of an event are the wasted ones, failed after going out or rolled back, and one more once it is marked or published |
| OutboxSafety.EmittedExactlyOnce | src/modules/income/infrastructure/financial-outbox-publisher.service.ts:64-98 | A published event went out exactly once if and only if no transaction that had marked it rolled back and no attempt at it failed after going out |
| OutboxSafety.RollbackCanRepeatAnEmission | src/modules/income/infrastructure/financial-outbox-publisher.service.ts:64-98 | A run that wastes one: from any reachable state a due event can be emitted by a transaction that rolls back and again by the one that publishes it |
| OutboxPublisher.FinancialOutboxPublisher.ProcessBatch | src/modules/income/infrastructure/financial-outbox-publisher.service.ts:70-96 | The loop settles each row by the outcome of its emission inside the open transaction and counts the delivered ones; it fails exactly when a write in the batch fails, after that event was emitted |
| OutboxPublisher.FinancialOutboxPublisher.RunOnce | src/modules/income/infrastructure/financial-outbox-publisher.service.ts:60-102 | A cycle takes exactly the unpublished, due, unlocked events that occurred first, at most a hundred by (occurred_at, id); it aborts exactly when a write fails, leaving every row as it was but the emissions gone out. Otherwise a delivered event is published now, a refused one has one attempt more, is due again now plus the back-off for its attempts and is dead-lettered from 10(m+1) attempts on, and every other row is as before |
| OutboxPublisher.FinancialOutboxPublisher.RetryDeadLetter | src/modules/income/infrastructure/financial-outbox-publisher.service.ts:158-170 | Exactly an unpublished dead letter is queued again: due now, no longer given up, one manual retry more, every other field and row as before, and ten attempts left in every reachable state |
| OutboxPublisher.FinancialOutboxPublisher.GetHealth | src/modules/income/infrastructure/financial-outbox-publisher.service.ts:104-127 | Pending counts the unpublished, not dead-lettered events due by now, delayed those due later, deadLettered the unpublished given-up ones, and oldestPendingAt is the earliest occurrence of the first two |
| OutboxPublisher.HealthAccountsForEveryEvent | src/modules/income/infrastructure/financial-outbox-publisher.service.ts:104-127 | In every reachable state pending, delayed, dead-lettered and published events partition the table |
| Apportionment.RemainderOrderIsSortedPermutation | src/modules/excel/application/preview-orders-import.use-case.ts:116-119 | The remainder order lists every component once, sorted by the comparator |
| Apportionment.LeftoverBelowRemainders | src/modules/excel/application/preview-orders-import.use-case.ts:115-122 | The leftover is nonnegative and smaller than the number of components with a nonzero remainder as soon as there is one (both are zero otherwise), so the modulo index never wraps |
| Apportionment.SplitSumsExactly | src/modules/excel/application/preview-orders-import.use-case.ts:106-128 | The component totals add up to the subtotal |
| Apportionment.SplitKeepsQuota | src/modules/excel/application/preview-orders-import.use-case.ts:106-128 | Each total is the floor or ceiling of its exact share, exact shares are kept, and a zero quantity gets zero |
| Apportionment.SplitIsFair | src/modules/excel/application/preview-orders-import.use-case.ts:116-122 | A larger quantity never gets fewer cents; equal quantities differ by at most one cent, lower index first |
| Apportionment.WinnersPrecedeLosers | src/modules/excel/application/preview-orders-import.use-case.ts:116-122 | Every component rounded up has a larger remainder than every other one, or the same and a lower index |
| Apportionment.SplitIsOptimal | src/modules/excel/application/preview-orders-import.use-case.ts:106-122 | No integer split with the same sum, negative entries included, has a smaller summed absolute deviation from the exact shares |
| Apportionment.AwardLeftover | src/modules/excel/application/preview-orders-import.use-case.ts:120-122 | The in-place loop adds one cent to exactly the first leftover places of the order |
| Apportionment.FloorShares | src/modules/excel/application/preview-orders-import.use-case.ts:106-115 | The mapped floors and their sum |
| Apportionment.Distribute | src/modules/excel/application/preview-orders-import.use-case.ts:106-124 | Floors plus the award loop compute the specified split |
| Apportionment.CalculateImportedComponentPrices | src/modules/excel/application/preview-orders-import.use-case.ts:82-129 | Each rejection in the order of the source; otherwise, and exactly when everything is in range, the split with the unit price that is nearest to subtotal over quantity, the larger of two equally near, or zeros without quantities |
| ImportNumbering.NextKeepsInv | src/modules/excel/application/preview-orders-import.use-case.ts:1427-1446 | The lock holder is the one transaction past the lock, and the number it read is still the next one |
| ImportNumbering.CommittedNumbersAreConsecutive | src/modules/excel/application/preview-orders-import.use-case.ts:1427-1446 | Over every interleaving of import transactions the committed series is the old one followed by consecutive numbers in commit order, from one more than its greatest, or from 1 for an empty series |
| ImportNumbering.GrowsOnlyByCommit | src/modules/excel/application/preview-orders-import.use-case.ts:297-371 | The series grows only by the commit of a transaction that has inserted, by its number |
| ImportNumbering.LockPassesOn | src/modules/excel/application/preview-orders-import.use-case.ts:1430-1432 | The lock is taken only when free, by a transaction that has begun, and freed only when its holder commits or aborts |
| ImportNumbering.CommittedNumbersAreDistinct | src/modules/excel/application/preview-orders-import.use-case.ts:422-432 | No committed number repeats another, old or new |
| ImportNumbering.WaitFreesLock | src/modules/excel/application/preview-orders-import.use-case.ts:1430-1432 | The lock wait ends with the lock free, whether the holder commits or aborts |
| ImportNumbering.OrdersImport.ReserveNextSaleOrderCorrelative | src/modules/excel/application/preview-orders-import.use-case.ts:1427-1446 | The reserved number is one more than the greatest committed one, 1 in an empty series, and stays so whatever others do before the insert |
| ImportNumbering.OrdersImport.ImportRow | src/modules/excel/application/preview-orders-import.use-case.ts:297-371 | One row in one transaction, with the lock waited for: whatever other importers do, it is imported exactly when nothing in its own transaction fails, under the newest number |
| ImportNumbering.OrdersImport.CreateClientsFromPreview | src/modules/excel/application/preview-orders-import.use-case.ts:260-386 | Every row of the file ends as an error or as an imported row, never both, and the errors are exactly the failing rows whatever other importers do; imported rows carry increasing committed numbers |
| Ledger.AppliedPrefix | src/infrastructure/database/migrations/20261012000000-add-sale-payment-ledger-and-operations.ts:142-158 | Over the first k posted payments the applied amounts sum to min(max(order total, 0), money received) |
| Ledger.WindowSumsFillGreedily | src/infrastructure/database/migrations/20261012000000-add-sale-payment-ledger-and-operations.ts:142-158 | The window-sum formula equals filling the order payment by payment |
| Ledger.AtMostOnePaymentIsSplit | src/infrastructure/database/migrations/20261012000000-add-sale-payment-ledger-and-operations.ts:142-195 | Applied and credit are nonnegative and make up every payment, and after the first payment with credit nothing more is applied |
| Ledger.TotalsIgnorePaymentOrder | src/infrastructure/database/migrations/20261012000000-add-sale-payment-ledger-and-operations.ts:142-195 | Order-level applied and credit sums do not depend on the order of the payments |
| Ledger.BackfilledAllocationsPassAudit | scripts/audit-financial-data.ts:191-201 | The over-allocation audit lists no order after the backfill, also for a negative order total: what is inserted sums to between 0 and the total |
| Ledger.BackfilledCreditIsTheRest | src/infrastructure/database/migrations/20261012000000-add-sale-payment-ledger-and-operations.ts:177-195 | Inserted allocations and inserted credit add up to the payments to the cent |
| Ledger.BackfillBooksEachPayment | src/infrastructure/database/migrations/20261012000000-add-sale-payment-ledger-and-operations.ts:142-195 | Each payment's inserted allocation is the applied part of that payment, its inserted credit the rest, together its amount; either list has at most one row a payment, all positive and for payments of the order |
| Ledger.LedgerAuditListsUnreceived | scripts/audit-financial-data.ts:171-188 | After the movement backfill the ledger audit lists exactly the posted payments without an existing receiving account |
| Ledger.KeptPrefix | src/modules/sale-orders/application/usecases/sale-order/correct-total.usecase.ts:239-250 | Releasing newest first caps every prefix of the applied amounts at the corrected total |
| Ledger.ReleaseEqualsBackfillAtLowerTotal | src/modules/sale-orders/application/usecases/sale-order/correct-total.usecase.ts:239-250 | What stays after a correction is what a backfill at the smaller total would have applied |
| Ledger.CorrectionsFollowTheSmallestTotal | src/modules/sale-orders/application/usecases/sale-order/correct-total.usecase.ts:220-251 | Over any history of corrections the allocation is the backfill at the smallest total the order ever had |
| Ledger.CalculateReleasedAllocations | src/modules/sale-orders/application/usecases/sale-order/correct-total.usecase.ts:239-250 | The loop returns the credited sum and, newest first, the positive releases that lead to the kept amounts |
| OperationReferences.NextKeeps | src/infrastructure/database/migrations/20261012060000-preserve-financial-operation-reference-history.ts:9-91 | Every accepted payment or refund write keeps the reservations consistent and only adds one or hands one over along a correction |
| OperationAcceptance.RefundInsertAccepted | src/infrastructure/database/migrations/20261012060000-preserve-financial-operation-reference-history.ts:9-40 | From conflict-free tables, over any run, a new refund is accepted exactly when its number is blank or nobody ever reserved it; the number is then reserved for it |
| OperationAcceptance.RefundUpdateAccepted | src/infrastructure/database/migrations/20261012060000-preserve-financial-operation-reference-history.ts:15-33 | A changed refund is accepted exactly when it exists and its number is blank, free or reserved by itself, earlier numbers included; the number is then its own |
| OperationAcceptance.PaymentInsertAccepted | src/infrastructure/database/migrations/20261012060000-preserve-financial-operation-reference-history.ts:54-81 | Over any run a new payment is accepted exactly when its row fits the table (the corrected payment exists and has no other correction, no other open payment carries the number) and its number is blank, free or held by the reversed payment it corrects; the number is then reserved for it |
| OperationAcceptance.PaymentUpdateAccepted | src/infrastructure/database/migrations/20261012060000-preserve-financial-operation-reference-history.ts:49-81 | Over any run an update is accepted exactly when the payment exists, its row fits the table, and number and correction are unchanged or the number is blank, free, its own or held by the reversed payment it corrects |
| OperationAcceptance.DeleteAccepted | src/infrastructure/database/migrations/20261012000000-add-sale-payment-ledger-and-operations.ts:37-66 | A payment can be deleted exactly when it holds no reservation and no other payment corrects it, a refund exactly when it holds none; nothing else changes |
| OperationAcceptance.ReachableTables | src/infrastructure/database/migrations/20261012000000-add-sale-payment-ledger-and-operations.ts:24-40 | In every reachable state each payment is corrected at most once, by reference to an existing payment, and open payments carry different numbers |
| OperationReferences.ReservationsAreForever | src/infrastructure/database/migrations/20261012060000-preserve-financial-operation-reference-history.ts:15-33 | From conflict-free tables a reserved number is never released and never changes between income and refund; a refund keeps it for good |
| OperationReferences.OwnershipMovesAlongCorrections | src/infrastructure/database/migrations/20261012060000-preserve-financial-operation-reference-history.ts:58-72 | Ownership moves only from a REVERSED payment to the payment that names it as corrected |
| OperationReferences.OwnersFormACorrectionChain | src/infrastructure/database/migrations/20261012060000-preserve-financial-operation-reference-history.ts:54-76 | All payments that ever owned a number form one chain of written corrections ending at the present owner; every payment carrying the number is in it and no refund carries it |
| OperationReferences.ShownAfterWrite | src/infrastructure/database/migrations/20261012010000-harden-sale-payment-correction.ts:9-11 | An accepted write keeps the chain of owners readable from the corrected_from column exactly when it does not give an owner that took the number over another correction |
| OperationReferences.ChainIsStored | src/infrastructure/database/migrations/20261012010000-harden-sale-payment-correction.ts:9-11 | Over any run from conflict-free tables the chain is readable from the column throughout if and only if no accepted write redirects an owner; deletes are harmless |
| OperationReferences.OwnerMayDropItsCorrection | src/infrastructure/database/migrations/20261012060000-preserve-financial-operation-reference-history.ts:46-50 | A concrete run of accepted writes from empty tables after which payments 0 and 1 have owned the number and the column no longer links them |
| OperationReferences.EarlierUpdateReleases | src/infrastructure/database/migrations/20261012010000-harden-sale-payment-correction.ts:19-22 | Under the earlier trigger an accepted update lost the payment's reservation exactly when it gave the payment another number |
| CompanyScope.ConflictChecksAgree | src/infrastructure/database/migrations/20261016000000-add-sale-order-company-scope.ts:18-44 | On an order without a company the migration's conflict check rejects exactly what the audit calls conflicting |
| CompanyScope.PaymentCompanyIsSingleValued | src/infrastructure/database/migrations/20261016000000-add-sale-order-company-scope.ts:61-82 | The payment-company subquery yields at most one row, and the only account company when there is exactly one |
| CompanyScope.AssignmentFollowsEvidence | src/infrastructure/database/migrations/20261016000000-add-sale-order-company-scope.ts:77-88 | Without a conflict the assigned company equals every creator and account company; none is found exactly when there is no evidence and not exactly one active company |
| CompanyScope.AssignmentLeavesTheUnresolved | scripts/audit-financial-data.ts:148-165 | After the assignment the orders without a company are exactly those the without-evidence audit listed, unless exactly one company is active |
| CompanyScope.AddSaleOrderCompanyScope.Up | src/infrastructure/database/migrations/20261016000000-add-sale-order-company-scope.ts:18-99 | Read off the user, payment, account and company tables: a conflict counts exactly the orders without a company whose creator and receiving accounts name two companies; unresolved counts exactly those they name none for, while not exactly one company is active; an error changes nothing, and success gives each of the others its one named company or the only active one |
| AssetMigration.AssetsMigration.ListFiles | src/shared/storage/migrate-assets-to-storage-public.ts:18-39 | The recursive walk lists every regular file at any depth exactly once; a missing directory lists nothing and a file in the way is an error |
| AssetMigration.AssetsMigration.HasSafeTargetDirectories | src/shared/storage/migrate-assets-to-storage-public.ts:64-86 | The walk down that stops at the first missing directory agrees with: every existing directory from the public root to the target is a real one |
| AssetMigration.AssetsMigration.CompareExistingFile | src/shared/storage/migrate-assets-to-storage-public.ts:49-62 | Present exactly when the target exists, same content exactly for a regular file with an equal hash |
| AssetMigration.AssetsMigration.ClassifyAll | src/shared/storage/migrate-assets-to-storage-public.ts:100-115 | The first loop sorts every legacy file into pending, skipped and conflicting without duplicates |
| AssetMigration.AssetsMigration.CopyOne | src/shared/storage/migrate-assets-to-storage-public.ts:120-122 | Making the directories and copying one file stays between the start and the merged tree |
| AssetMigration.AssetsMigration.CopyAll | src/shared/storage/migrate-assets-to-storage-public.ts:120-124 | Copying every pending file yields the merged tree and counts them |
| AssetMigration.AssetsMigration.Migrate | src/shared/storage/migrate-assets-to-storage-public.ts:88-127 | Read off the two trees: the conflicts listed are exactly the legacy files below something other than a directory or whose place holds anything but a file of the same hash, and any one leaves the tree untouched; otherwise each legacy file is at its path under the public root, nothing that was there changed, nothing is added but copies and the directories above them, and copied and skipped count the absent and the present ones |
| AssetMigration.MergeInstallsEveryFile | src/shared/storage/migrate-assets-to-storage-public.ts:117-126 | In the merged tree every legacy file has a target with the same hash, a missing one is an exact copy, and nothing that existed changed |
| AssetMigration.CopiesAreEqual | src/shared/storage/migrate-assets-to-storage-public.ts:55-57 | Without hash collisions among the files at hand every target holds the same bytes as its source |
| AssetMigration.MergeIsWellFormed | src/shared/storage/migrate-assets-to-storage-public.ts:120-122 | The merged file system is again a tree |
| AssetMigration.InterruptedRunsConverge | src/shared/storage/migrate-assets-to-storage-public.ts:88-127 | From any tree between the start and the merged one, as any interruption leaves it, running again meets no conflict and reaches the same final tree |
| AssetMigration.SecondRunCopiesNothing | src/shared/storage/migrate-assets-to-storage-public.ts:107-112 | After a successful run every legacy file is skipped and the tree stays as it is |
| Equivalences.GuardIsExact | src/infrastructure/database/migrations/20260805000000-align-product-equivalences-to-base-unit.ts:12-36 | The guard rejects exactly the tables on which the flip, in either direction, would break uniqueness of (product, from, to) |
| Equivalences.TurnedRowsAreOnBase | src/infrastructure/database/migrations/20260805000000-align-product-equivalences-to-base-unit.ts:28-36 | After the flip the rows targeting the base unit are exactly those that touched it; rows are only turned, never otherwise changed |
| Equivalences.TurnedRowsLeaveBase | src/infrastructure/database/migrations/20260806110000-restore-legacy-product-equivalence-direction.ts:33-42 | After the opposite flip no row targets the base unit and those starting out from it are exactly those that touched it |
| Equivalences.TurnReverses | src/infrastructure/database/migrations/20260805000000-align-product-equivalences-to-base-unit.ts:28-36 | A flip exchanges the units of exactly the rows with the base at the given end and another unit at the other, and keeps product and factor |
| Equivalences.WritesAccepted | src/infrastructure/database/migrations/20260805000000-align-product-equivalences-to-base-unit.ts:38-93 | Exactly these writes go through, with or without the triggers: rows with a positive factor, different units, a known product and a free triple, under guard only onto the product's base; base changes, under guard only of products without rows; each leaves exactly its own change |
| Equivalences.DownUndoesUp | src/infrastructure/database/migrations/20260806110000-restore-legacy-product-equivalence-direction.ts:33-55 | down after up of the restore migration is the identity exactly when no row started out from its base unit |
| Equivalences.DownNeverCollidesAfterUp | src/infrastructure/database/migrations/20260806110000-restore-legacy-product-equivalence-direction.ts:45-55 | The unguarded flip of down cannot break uniqueness right after up |
| Equivalences.RunKeeps | src/infrastructure/database/migrations/20260805000000-align-product-equivalences-to-base-unit.ts:38-93 | While both triggers are installed, over any writes to both tables, every row targets its product's current base unit unless it has been off the same base from the start and never rewritten |
| Equivalences.GuardedTablesRestore | src/infrastructure/database/migrations/20260806110000-restore-legacy-product-equivalence-direction.ts:13-55 | Align any valid table, apply any writes, restore, reverse: the restore guard passes, uniqueness holds, and the very same rows come back |
| Equivalences.ProductEquivalences.TurnRows | src/infrastructure/database/migrations/20260805000000-align-product-equivalences-to-base-unit.ts:28-36 | Rows turned in place one at a time give the set-based update |
| Equivalences.ProductEquivalences.AlignUp | src/infrastructure/database/migrations/20260805000000-align-product-equivalences-to-base-unit.ts:6-95 | Succeeds exactly when the flip keeps uniqueness, installs the triggers, and leaves all rows on base exactly when all rows touched it |
| Equivalences.ProductEquivalences.RestoreUp | src/infrastructure/database/migrations/20260806110000-restore-legacy-product-equivalence-direction.ts:6-43 | Succeeds exactly when the flip keeps uniqueness; a failed guard restores rows and triggers |
| Equivalences.ProductEquivalences.RestoreDown | src/infrastructure/database/migrations/20260806110000-restore-legacy-product-equivalence-direction.ts:45-104 | Succeeds exactly when the triggers are absent and no row has its opposite; otherwise nothing changes |
| Receivers.ValidationMatchesAudits | scripts/reconcile-sale-payment-receivers.ts:121-164 | A payment passes validation exactly when it is posted, its targets have names where they exist and, once redirected, none of the three receiver and method audits lists it; these list posted payments only |
| Receivers.ErrorsNameTheirCause | scripts/reconcile-sale-payment-receivers.ts:121-164 | Each error is reported for a mapping exactly when its cause is there, and nothing more is reported once the account or the method is missing |
| Receivers.UuidIsWellFormed | scripts/reconcile-sale-payment-receivers.ts:33-34 | Accepted ids are exactly groups of 8, 4, 4, 4 and 12 hexadecimal digits of either case joined by dashes, of versions 1 to 5 and variant 8, 9, a or b |
| Receivers.CanonIgnoresCase | scripts/reconcile-sale-payment-receivers.ts:33-34 | Two ids are one uuid exactly when they differ in case at most |
| Receivers.ParseAccepts | scripts/reconcile-sale-payment-receivers.ts:36-60 | A file is parsed exactly when it is not empty, every item has three well-formed ids and no payment id is spelled twice alike; the mappings carry the items' fields, and the first bad item is named by its row |
| Receivers.AcceptedIsNotListed | scripts/audit-financial-data.ts:487-551 | An accepted mapping leaves the three audits silent; validation is stricter by the names alone |
| Receivers.AppliedPaymentsPassAudits | scripts/reconcile-sale-payment-receivers.ts:196-206 | After an applied batch no mapped payment is listed by the invalid-receiver, incompatible-receiver or invalid-method audit |
| Receivers.ApplyAllIs | scripts/reconcile-sale-payment-receivers.ts:196-206 | Mapped payments take the targets of one of their mappings and keep all else; other payments keep every field |
| Receivers.OrderFreeIffConsistent | scripts/reconcile-sale-payment-receivers.ts:196-206 | The result is independent of the order of the file exactly when mappings of one payment, however its id is spelled, agree on their targets |
| Receivers.ParsedFileIsConsistent | scripts/reconcile-sale-payment-receivers.ts:36-60 | A parsed file is order free whenever no id is spelled in two ways |
| Receivers.CaseVariantsSlipThrough | scripts/reconcile-sale-payment-receivers.ts:33-57 | A concrete file, catalog and posted payment: two spellings of one id with different accounts are parsed and accepted, and the order of the file decides the result |
| Receivers.SalePayments.Validate | scripts/reconcile-sale-payment-receivers.ts:121-168 | No error is reported exactly when every mapped payment exists and every mapping is acceptable; reported are exactly the errors some mapping of a known payment causes, and the row count when a payment is unknown |
| Receivers.SalePayments.Reconcile | scripts/reconcile-sale-payment-receivers.ts:62-217 | All mapped payments change or none: the file is refused exactly when it is empty, has an item without three well-formed ids or spells a payment twice alike, it is rejected exactly when some mapping is not accepted, and both leave the table as it was, as a simulation does |
| Payables.ReconciledBalances | src/infrastructure/database/migrations/20260921140000-harden-accounts-payable-lifecycle.ts:83-90 | Paid plus pending equals the total always, and the balance audit lists the result exactly when the total is negative; paid is the summed payments cut to between nothing and the total, and status and review flag compare the sum with the total |
| Payables.BalancesMatchAllocations | src/infrastructure/database/migrations/20260921150000-create-payment-allocations-and-lifecycle.ts:20-26 | Paid is the later allocated sum up to the total, the status says how far it goes, and manual review is set exactly when the allocations exceed the total |
| Payables.AuditListsUnlinked | scripts/audit-financial-data.ts:343-352 | Of the payments just posted the allocation-total audit lists exactly those without a payable |
| Payables.AccountsPayable.ReconcileBalances | src/infrastructure/database/migrations/20260921140000-harden-accounts-payable-lifecycle.ts:77-94 | Exactly the payables with an approved document are reconciled to their summed payments |
| Payables.AccountsPayable.CreateAllocations | src/infrastructure/database/migrations/20260921150000-create-payment-allocations-and-lifecycle.ts:20-27 | It succeeds exactly when every approved linked document without its allocation has a positive amount; then one allocation with its payable and amount is inserted for each of these, every approved document is posted and every other one is as before. A violated check undoes everything |

## Left out

- ImportNumbering.OrdersImport.ImportRow: that the transaction holding the lock ever ends is assumed, so how long a wait lasts is not modelled.
- AssetMigration.AssetsMigration.Migrate: one copy is atomic; does not follow symbolic links above the roots, permissions, races with other writers of the file system or Windows separators; directory order is arbitrary and conflicts are compared as sets.
- Equivalences.RunKeeps: writes are taken one at a time; two uncommitted transactions whose triggers do not see each other's rows are not modelled.
- OperationAcceptance.DeleteAccepted: does not model the other rows that refer to a payment or refund (re-entries, movements, allocations), which forbid further deletes.
- CompanyScope.AddSaleOrderCompanyScope.Up: adding the foreign key and NOT NULL afterwards is not modelled; the key fails only if an account or user names a company that does not exist.
- Receivers.SalePayments.Validate: error texts and their order are not modelled, nor changes to accounts and methods by others while the batch runs; the codes of the compatibility table and everything else are told apart, but not names such as `constructor` that a JavaScript object also answers to.
- Payables.BalancesMatchAllocations: allocations start from the empty table the migration creates; currencies of payments and payables are not compared, as in the code.
- Apportionment.CalculateImportedComponentPrices: starts at integer minor units; the conversion of decimal numbers to cents and back is not modelled.
- OutboxSafety.RunKeeps: starts from an empty table, so rows that carried attempts before retries were counted are not covered.
- OutboxPublisher.FinancialOutboxPublisher.RetryDeadLetter: takes the returned rows as the source reads them. Under the pinned typeorm (^0.3.22) a raw UPDATE ... RETURNING yields the rows together with their count, so that the test of the first element always succeeds and the not-found branch is never taken.
- OutboxPublisher.FinancialOutboxPublisher.RunOnce: an error of COMMIT itself is not modelled apart from the rollback it causes.
- Storage keys are modelled as area, directory segments and file name; `..` segments and the file system under them are not.
- The upload, quarantine and payment-management use cases as further writers of evidence operations and attachments; a change of a payment's row is a step, a second writer of attachments is not.
- The earlier statements of the payables migration that create and link payables, and the recurring parts of the schema migrations: single inserts with easy guards.
- Append-only triggers, bank statement guards, permission seeding, index and column migrations: they would add easy members.
- Realtime payloads, log lines, timers, the health alert, dead-letter listing and report formatting.
- Text normalisation, product-code and address classification of the Excel import.
