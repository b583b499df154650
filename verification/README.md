# Momobase, modelled and proved in Dafny

Momobase takes payment requests from applications, sends each to one of several payment
providers, and settles it from three sides at once: the request that created it, the
provider's webhooks, and a reconciliation worker that polls. This project models that
protocol and the machinery around it, and proves what they promise over every input and
every run.

## How it is laid out

| file | part of the system |
|---|---|
| `Tables.dfy` | the payment tables; one function per database transaction; what the tables keep (`Sound`) |
| `Database.dfy` | the same transactions as the services write them, step by step over a mutable store, each proved equal to its function in `Tables` |
| `Settlement.dfy`, `SettlementSafety.dfy` | requests, deliveries and workers interleaved, with crashes anywhere; the invariant and the theorems over runs |
| `Outcomes.dfy`, `RunOutcomes.dfy` | what each transaction leaves behind, column by column, and when it is refused; what each step of a run leaves behind, and where each change comes from |
| `WebhookOrder.dfy` | deliveries that repeat, events that share a key, and deliveries that come before their payment is published |
| `Provenance.dfy` | every webhook change traced to a stored event |
| `PollSchedule.dfy` | when a transaction is polled |
| `Statuses.dfy` | the status graph and the normalization of provider vocabularies |
| `Migrations.dfy`, `MigrationLedger.dfy` | migration lists, one runner alone, and any number of runners at once |
| `Breaker.dfy` | the circuit breaker as a refinement of the history of its admissions and reports |
| `Amounts.dfy`, `Charges.dfy`, `Text.dfy`, `Order.dfy` | amounts as text and back, fees, digit strings, the order of strings |
| `Sessions.dfy` | refresh-token rotation (section 6 of RFC 6749) by compare-and-swap |
| `Routing.dfy` | choosing a provider, and listing what could be chosen |
| `Analytics.dfy`, `Metrics.dfy` | the bucketed transaction series |
| `DummyLedger.dfy` | the simulated provider's ledger |
| `RuntimeSync.dfy` | provider rows against the runtimes loaded from them |

`dafny verify dfyconfig.toml` checks everything.

## How the system is modelled

A block run by `Within` is one atomic step: row locks and the database's isolation are
taken to give that. Everything between two such blocks, including every provider call and
every first lookup, is a step of its own, so others may run in between, and a process may
stop at any of them. A provider call returns any response or an error. What a query may
answer when several rows qualify is a parameter of the step, so every answer is covered.

The point on which settlement turns is `persist`, which writes a status computed from the
request's own copy of the row, over whatever the table holds. It overwrites nothing that
matters because nobody else can have moved the row: until `persist` commits a non-empty
reference, webhooks cannot find the attempt and the worker does not select the row. That
is `Inv` in `SettlementSafety.dfy`; `UnpublishedIsPrivate` states it for runs.

Where a claim one would expect turned out not to hold, the code is modelled as it is. The
exact condition under which the claim holds is proved, and so is an input that breaks it:

* Reading a printed amount gives it back, except for the least 64-bit amount in a currency
  with three decimals (`Amounts.RoundTripExact`); `Amounts.LeastDinarsLost` is that input.
* No other event of the account shares an event's deduplication key, except when a bar
  stands in the event's type, status or external reference, or in its provider reference
  past the first character, or when its currency holds an amount closed by a bar
  (`WebhookOrder.SharedKeyExact`); `WebhookOrder.CollidingPair` is such a pair. Country
  and customer account are not part of the key, so events that differ in those alone
  always share it.
* Migration identifiers sort as their versions do, when those are digits, except when one
  version is the beginning of the other (`Migrations.VersionOrderExact`): `10_b` comes before `1_a`
  (`Migrations.TenBeforeOne`).
* Never more than one call is in flight while the breaker is not closed, except when a
  call beside the probe was left over from before (`Breaker.InFlightExact`);
  `Breaker.LeftoverLetsTwoIn` is a history with two.
* The tokens an answered refresh got work, except when the session was rotated again,
  revoked, deleted or has expired (`Sessions.AnswerWorks`), which may have happened before
  the answer (`Sessions.AnswerAfterRevocation`).
* The simulated balance never turns negative, except when a credit overflows
  (`DummyLedger.NeverNegativeExact`); `DummyLedger.CreditOverflows` runs into it.
* No runtime is loaded for an inactive row, except after activating an account that was
  active already, when its rebuild failed (`RuntimeSync.LeftoverExact`);
  `RuntimeSync.ReactivationLeavesRuntime` is that step.

## Model

| member | source | states |
|---|---|---|
| SettlementSafety.StepKeeps | internal/service/payment/orchestrator.go:94-289 | every step of a request, a delivery or a worker keeps the invariant, undoes nothing settled, and leaves every unpublished payment alone except the persist of its own request |
| SettlementSafety.TerminalForever | internal/service/payment/orchestrator.go:255-259 | a terminal status, once committed, is the status of the transaction and of its completed attempt in every later state of the run, although `persist` writes unconditionally |
| SettlementSafety.UnpublishedIsPrivate | internal/repository/payments.go:234-248 | a payment without a published reference is changed, rows and log, only by the persist of the request that owns it |
| SettlementSafety.WritesNeverRefused | internal/domain/state_machine.go:12-37 | in every reachable state the status graph refuses no persist, no poll and no deferral in flight, whatever the provider answered |
| SettlementSafety.ReachableRow | internal/service/payment/orchestrator.go:249-254 | pending and made-up statuses are unreachable; a row is untouched, or its next poll is empty exactly when its status is terminal |
| SettlementSafety.ReachableAttempt | internal/service/payment/orchestrator.go:184-199 | every transaction has exactly one attempt, with its reference; it is completed exactly when the transaction is terminal; statuses differ only as unknown against processing after a deferral |
| SettlementSafety.ChangesAreAWalk | internal/service/reconciliation/service.go:97-139 | the published changes of a transaction in commit order are a gapless walk of legal edges from pending, the first and only the first from the request, ending at the stored status, with nothing after a terminal one |
| SettlementSafety.OnePaymentPerKey | internal/domain/models.go:184-191 | per application no two transactions share an idempotency key or a reference; per key there is at most one provider call, made only for a stored row; all successes name the same transaction and the same request |
| SettlementSafety.DifferentRequestRefused | internal/service/payment/orchestrator.go:300-303 | a lookup that finds a row with another request hash ends in an error and changes nothing |
| SettlementSafety.PaymentImmutable | internal/service/payment/orchestrator.go:163-183 | amount, fees, hash and the other creation columns never change, a published reference never changes, and the change log only grows |
| SettlementSafety.RunStable | internal/service/webhook/service.go:119-177 | over any stretch of any run rows stay, terminal statuses and references are final, stored events stay as stored |
| SettlementSafety.PersistStep | internal/service/payment/orchestrator.go:215-289 | a persist always finds its rows untouched, commits, and moves only them |
| SettlementSafety.PollStep | internal/service/reconciliation/service.go:80-174 | recording or deferring a poll of a selected row keeps the invariant and touches no unpublished payment |
| SettlementSafety.ReapplyStep | internal/service/webhook/service.go:180-207 | reapplying a stored event keeps the invariant and touches no unpublished payment |
| RunOutcomes.PersistSettles | internal/service/payment/orchestrator.go:224-262 | in every run, when a request persists, its payment and its attempt stand under the provider's reference with the status its word names, or, when the provider did not answer, unknown and unpublished; a settled one is completed and polled no more, a live one is due a minute later |
| RunOutcomes.PollSettles | internal/service/reconciliation/service.go:84-166 | in every run, a recorded poll of a live payment leaves it and its attempt with the status the provider's word names; a deferral leaves it unknown and the attempt as it was; either counts it once and reschedules it; one that has settled meanwhile is left alone |
| RunOutcomes.ReapplySettles | internal/service/webhook/service.go:119-207 | in every run, a stored event that is taken up waits while its reference names no attempt; if its payment accepts it, it settles payment and attempt and is marked as processed; else nothing changes and the pass ends |
| RunOutcomes.DeliverSettles | internal/service/webhook/service.go:101-177 | in every run, a delivery the account has had before changes nothing; a new one is refused without a trace when its payment does not accept it, and is else stored and settles what its reference names |
| RunOutcomes.SelectExact | internal/repository/payments.go:234-248 | in every run, a worker can select exactly the payments that are not settled, are published, and whose time has come |
| RunOutcomes.ProcessedForGood | internal/repository/payments.go:347-360 | in every run, a processed event stays processed and is in no later batch |
| RunOutcomes.RequestCompletes | internal/service/payment/orchestrator.go:93-289 | from every state with the identifiers, the key and the reference free, a request left alone runs to its end: one transaction more, standing as the provider answered, and named to the caller |
| RunOutcomes.ChangesMade | internal/service/reconciliation/service.go:97-139 | in every run, every published change was made by a step of its own kind: a persist, to what the provider answered; a poll or a deferral of that payment, to the status the word names or to unknown; or a delivery |
| RunOutcomes.AnswerReturned | internal/service/payment/orchestrator.go:201-213 | in every run, an answer a request is about to persist is one the provider returned for that request |
| RunOutcomes.RequestChangesAnswered | internal/service/payment/orchestrator.go:229-289 | in every run, every change a request made goes back to the answer the provider returned for that very payment |
| Outcomes.InsertExact | internal/domain/models.go:184-191 | an insert goes through exactly when both identifiers are free and no row of the same application has the key or the reference; then both rows are there, processing and unpublished, and nothing else has changed |
| Outcomes.PersistResponse | internal/service/payment/orchestrator.go:234-262 | persisting a response always goes through, and leaves both rows with its reference and the status its word names, completed or due a minute later, with one change logged and no other row touched |
| Outcomes.PersistFailure | internal/service/payment/orchestrator.go:226-233 | persisting an error leaves both rows unknown, with the reference they had, due a minute later, with one change logged and no other row touched |
| Outcomes.ResponseFindable | internal/repository/payments.go:303-318 | after a persisted response its reference finds an attempt, and this one when no other attempt of the account carries it |
| Outcomes.BackoffExact | internal/service/reconciliation/service.go:198-206 | the pause after poll n is 1, 2, 4, 8, 16 and from then on 32 minutes |
| Outcomes.DueExact | internal/repository/payments.go:234-248 | a row is selected exactly when it is not settled, published, and its time has come |
| Outcomes.PollOutcome | internal/service/reconciliation/service.go:88-133 | a poll of a live, published payment always goes through, and leaves it and its only attempt with the status the provider's word names, counted, and settled or rescheduled, with a change logged exactly when the status moved |
| Outcomes.DeferOutcome | internal/service/reconciliation/service.go:142-166 | a deferral of a live, published payment always goes through, and leaves it unknown, counted and rescheduled, every attempt as it was, and a change logged exactly when the status moved |
| Outcomes.PollTooLate | internal/service/reconciliation/service.go:92-96 | an answer that comes after the payment has settled changes nothing |
| Outcomes.ApplyExact | internal/service/webhook/service.go:131-144 | an event whose reference names an attempt is applied exactly when it contradicts the payment in nothing it states and its status is the present one or one the graph lets the payment move to; else it is refused |
| Outcomes.ApplyOutcome | internal/service/webhook/service.go:141-176 | an applied event leaves payment and attempt with its status and reference, completed or due a minute later, is marked as processed for that payment, and touches no other row |
| Outcomes.ApplyWaits | internal/service/webhook/service.go:122-128 | an event whose reference names no attempt changes nothing |
| Outcomes.HandleExact | internal/service/webhook/service.go:101-118 | a new delivery is stored unprocessed when its reference names nothing, and is else applied as a stored event is, or refused without being stored |
| Outcomes.HandleRepeated | internal/service/webhook/service.go:101-107 | a delivery the account has an event with the same key of changes nothing |
| Outcomes.VerifiedExact | internal/service/webhook/service.go:67-76 | verification lets through exactly the events with a reference, with their codes in capitals and all else as reported |
| Tables.InsertSound | internal/service/payment/orchestrator.go:195-200 | the insert of a transaction with its attempt keeps what the tables keep |
| Tables.PersistSound | internal/service/payment/orchestrator.go:227-262 | over untouched rows the persist commits for every answer and keeps what the tables keep |
| Tables.WebhookSound | internal/service/webhook/service.go:125-176 | applying an event with a reference keeps what the tables keep, whether it matches, is refused or finds nothing |
| Tables.PollSound | internal/service/reconciliation/service.go:90-133 | recording a poll of a published row always succeeds and keeps what the tables keep |
| Tables.DeferSound | internal/service/reconciliation/service.go:142-166 | deferring a published row always succeeds and keeps what the tables keep, although the attempt is not written |
| Settlement.PersistMoves | internal/service/payment/orchestrator.go:255-259 | a persist leaves every other payment's rows, and everything settled, as it was |
| Settlement.WebhookMoves | internal/service/webhook/service.go:70-72 | an event with a non-empty reference cannot move an unpublished payment |
| Settlement.HandleMoves | internal/service/webhook/service.go:101-110 | nor can a whole delivery, stored and applied in one transaction |
| Settlement.PollMoves | internal/service/reconciliation/service.go:91-127 | recording a poll moves only the polled transaction and its attempt, and nothing settled |
| Settlement.DeferMoves | internal/service/reconciliation/service.go:142-161 | deferring moves only the deferred transaction, and nothing settled |
| Database.Transaction.Transition | internal/domain/state_machine.go:12-37 | writes the next status exactly when the graph allows the move, and otherwise leaves it |
| Database.Store.ByIdempotencyKey | internal/repository/payments.go:202-206 | finds a row of the application and key, or there is none |
| Database.Store.LatestForReferenceRow | internal/repository/payments.go:303-318 | finds an attempt of the account carrying the reference, none of those created later, or there is none |
| Database.Store.LatestForTransactionRow | internal/repository/payments.go:286-301 | finds an attempt of the transaction against the account, none of those created later, or there is none |
| Database.Store.DueForReconciliation | internal/repository/payments.go:234-248 | up to the limit of distinct unsettled, published rows whose time has come, oldest first, none left out that is older, and all of them when fewer |
| Database.Store.LockForUpdate | internal/repository/payments.go:222-232 | a fresh copy of the stored row, or nothing |
| Database.Store.UpdateFromStatus | internal/repository/payments.go:260-270 | writes the named columns exactly while the row still has the status it was read at |
| Database.Store.MarkProcessed | internal/repository/payments.go:354-360 | marks the event with its transaction, or reports that its row is gone |
| Database.Store.InsertRows | internal/service/payment/orchestrator.go:195-200 | both rows or none: does what the insert's function says, which `Outcomes.InsertExact` pins column by column |
| Database.Store.Persist | internal/service/payment/orchestrator.go:215-277 | computes both updates step by step and commits what the persist's function says, which `Outcomes.PersistResponse` and `Outcomes.PersistFailure` pin column by column, with both updates rolled back when either fails |
| Database.Store.Create | internal/service/payment/orchestrator.go:93-213 | a whole create, with others at work before its insert and while the provider answers: a taken key is answered from the stored row, by a success of the same request or an error; a refusal before the insert writes nothing; a lost race is looked up again; else the payment is stored and the answer persisted over whatever the tables hold by then, and told exactly when that commits. With the key, the reference and the identifiers free and its rows still as inserted, it always ends with its transaction, both rows standing as the provider answered |
| Database.Store.ValidateWebhook | internal/service/webhook/service.go:246-257 | refuses an event exactly when it states an amount, currency, country, reference or account that is not the payment's |
| Text.FoldsLikeUpper | internal/service/webhook/service.go:246-257 | two ASCII codes count as equal exactly when they have one upper case |
| Database.Store.Apply | internal/service/webhook/service.go:119-177 | finds, checks, moves and marks as the delivery's function says, with the same error; `Outcomes.ApplyExact` and `Outcomes.ApplyOutcome` pin that function |
| Database.Store.Handle | internal/service/webhook/service.go:83-118 | a delivery without reference is refused; any other is stored and applied in one transaction, or changes nothing |
| Database.Store.PendingEvents | internal/repository/payments.go:347-352 | distinct unprocessed events with their content, up to the limit, and all of them when fewer |
| Database.Store.ReprocessPending | internal/service/webhook/service.go:188-206 | takes the events read from storage in order, each in its own transaction, passing over those whose row is gone and ending at the first other failure |
| Database.Store.Reconcile | internal/service/reconciliation/service.go:88-133 | records the provider's word as the poll's function says, which `Outcomes.PollOutcome` pins, with the conditional update and the rollback |
| Database.Store.DeferRetry | internal/service/reconciliation/service.go:142-174 | moves the transaction to unknown and schedules the next poll as the deferral's function says; always ends in an error, the cause or why it could not be recorded |
| Database.Store.ReconcileRow | internal/service/reconciliation/service.go:80-141 | a live, published row is counted once and rescheduled; it and its attempt get the status the provider's word names, or, when the provider did not answer, it becomes unknown and its attempt stays; every other payment and attempt stays; an error comes back exactly when the provider did not answer |
| Database.Store.RunOnce | internal/service/reconciliation/service.go:52-79 | a pass takes the oldest due rows, up to the limit; before the sweep each of them stands as its own poll or deferral left it, and every other payment as it was; then it sweeps distinct pending webhooks, all of them when fewer than the limit and none refused; it ends in an error exactly when some provider did not answer or an event was refused, and keeps soundness, settled outcomes and unpublished payments |
| Database.PassMoves | internal/service/webhook/service.go:188-206 | a sweep over events with a reference keeps soundness, settled outcomes, unpublished payments and poll counts |
| WebhookOrder.EarlyDeliveryCommutes | internal/service/webhook/service.go:119-128 | an event stored before its reference names anything and applied later, after any other operations, leaves transactions, attempts and changes exactly as delivering it only then |
| WebhookOrder.PassIsOps | internal/service/webhook/service.go:180-207 | a reprocessing pass is a run of such operations, so it may stand among them |
| WebhookOrder.RedeliveryIgnored | internal/repository/payments.go:331-345 | once stored, an event delivered again changes nothing, whatever has happened since |
| WebhookOrder.RedeliveryInRuns | internal/service/webhook/service.go:101-107 | in every run a delivery of an event stored at any earlier point leaves the whole state as it is |
| WebhookOrder.DedupeKeyExact | internal/service/webhook/service.go:227-245 | an event without a bar in its fields shares its key with exactly the events that agree with it in all seven fields, whatever those hold |
| WebhookOrder.SharedKeyExact | internal/service/webhook/service.go:227-245 | some other event that verification lets through has the same account and key if and only if a bar stands in the type, the status, the external reference, or the provider reference past its first character, or the currency holds an amount closed by a bar |
| WebhookOrder.BarsCollide | internal/service/webhook/service.go:236-244 | every event whose status holds a bar shares its key with an event of another type and status |
| WebhookOrder.CollidingPair | internal/service/webhook/service.go:236-244 | two events of one account, told apart by type and status, with one key |
| Provenance.WebhookChangesBacked | internal/service/webhook/service.go:119-177 | in every run, every change a webhook made is backed by a stored event of the same account and published reference that reports that status and contradicts the payment in nothing it states |
| Provenance.StepBacked | internal/service/webhook/service.go:246-257 | any step's new webhook changes are so backed |
| PollSchedule.PollsOnTime | internal/service/reconciliation/service.go:198-206 | with one worker and no webhooks poll n comes 2^(n-1) minutes or more after the persist for n up to seven, and every later one 32 minutes or more after the one before |
| PollSchedule.ScheduleKept | internal/service/reconciliation/service.go:102-114 | from the persist on, in every later state, the row's next poll is no earlier than the schedule and than its last poll plus backoff |
| PollSchedule.RecordedOnTime | internal/service/reconciliation/service.go:153-159 | a poll of a due row is on time and leaves the row on schedule, recorded or deferred |
| Statuses.PaymentStatus | providers/amount.go:18-33 | every text is mapped onto a terminal status, processing or unknown |
| Statuses.PaymentStatusWords | providers/amount.go:18-33 | exactly which words, whatever their case and the space around them, name success, failure, progress, cancellation and expiry; every other word is unknown |
| Statuses.PaymentStatusIdempotent | providers/amount.go:14-17 | mapping a mapped status again changes nothing |
| Statuses.TextRoundTrip | internal/domain/state_machine.go:12-37 | no status text is confused with another, and none is lost |
| Statuses.MovesAreFinal | internal/domain/state_machine.go:12-44 | no sequence of requested moves leaves a terminal status or comes back to pending |
| Statuses.EdgeExact | internal/domain/state_machine.go:12-37 | a pending, processing or unknown status moves to every normalized status but itself, and no other status moves |
| Statuses.LiveTakesNormalized | internal/domain/state_machine.go:24-31 | a processing or unknown transaction can take every normalized answer |
| MigrationProtocol.LedgerIsPrefix | internal/migrations/runner.go:36-110 | with any number of runners, failures and crashes the ledger is the beginning of the ordered list, clean but for its last row; one change runs at a time; changes start in order and each at most once; a row is clean only after its change came back |
| MigrationProtocol.StartsAfterEarlier | internal/migrations/runner.go:64-79 | a change starts for the first time, and only when every earlier migration came back and is clean |
| MigrationProtocol.InterruptedBlocks | internal/migrations/runner.go:88-106 | once an interrupted change is nobody's, its dirty row stays and no change ever starts again |
| MigrationProtocol.SoloCompletes | internal/migrations/runner.go:36-86 | from every state with a clean ledger, a runner that is left alone and whose changes succeed gets to its end, with its whole list in the ledger and clean |
| MigrationProtocol.StepKeeps | internal/migrations/runner.go:66-86 | each step of any runner keeps the invariant behind these |
| MigrationLedger.Ledger.Read | internal/migrations/runner.go:88-110 | all identifiers, or a refusal while any row is dirty |
| MigrationLedger.Ledger.Apply | internal/migrations/runner.go:64-86 | a recorded identifier, or a row the database refuses, ends it with nothing written; a failing change or a flag that cannot be cleared leaves the row dirty; else it is clean |
| MigrationLedger.Ledger.Run | internal/migrations/runner.go:36-62 | a malformed list or a dirty ledger changes nothing; else the pending migrations are applied in order up to the first that does not complete, which stays dirty once recorded |
| MigrationLedger.Ledger.ApplyPending | internal/migrations/runner.go:52-61 | what is done is the beginning of the pending list, all of it exactly on success |
| MigrationLedger.RunExact | internal/migrations/runner.go:36-86 | a run over a clean ledger succeeds exactly when every missing migration completes, and then the ledger is clean and holds the whole list; else it stops at the first missing one that does not: those before it are there and clean, it is there and dirty unless its row was refused, and none after it is |
| Migrations.Validate | internal/migrations/migrations.go:61-82 | no fault exactly for a list of complete migrations with distinct identifiers and versions; else the first fault and its kind |
| Migrations.Ordered | internal/migrations/runner.go:112-116 | strictly ascending, the same members, the same number |
| Order.OneOrder | internal/migrations/runner.go:112-116 | the members of a list have only one ascending arrangement, so any sort gives it |
| Migrations.VersionOrderExact | internal/migrations/migrations.go:27-30 | identifiers sort as their versions exactly when neither version is the beginning of the other |
| Migrations.TenBeforeOne | internal/migrations/runner.go:112-116 | a well-formed list of versions 1 and 10 is ordered with 10 first |
| Migrations.PaddedVersionsAscend | internal/migrations/migrations.go:46-53 | versions padded to one width run in the order of their numbers |
| Breaker.Circuit.State | internal/service/provider/runtime.go:26-36 | the state is a function of the history of reports and the time |
| Breaker.Circuit.Before | internal/service/provider/runtime.go:37-48 | admits exactly when closed, or when half open and nothing was admitted since the last report |
| Breaker.Circuit.After | internal/service/provider/runtime.go:49-61 | keeps the fields equal to what the history says: trailing failures, time of the last report once tripped, probe out |
| Breaker.Circuit.Execute | internal/service/provider/executor.go:192-211 | a call is refused and leaves no trace, or is admitted and, with any others coming and going while it is out, reported last: as a failure exactly when the provider failed and the caller had not cancelled |
| Breaker.TrippedExact | internal/service/provider/runtime.go:57-60 | tripped exactly when the three latest reports all failed, admissions aside |
| Breaker.OpensExact | internal/service/provider/runtime.go:26-61 | read off the reports alone: closed and open to all unless the three latest failed; else open for the 30 seconds after the latest and half open from then on, and admitting exactly when half open with a report as the last event |
| Breaker.ThreeFailuresOpen | internal/service/provider/executor.go:203-211 | three calls that fail uncancelled, with no success reported between or after them, leave the circuit open and closed to every call until 30 seconds after the latest report |
| Breaker.OpenAfterThird | internal/service/provider/runtime.go:57-60 | right after the third such call the circuit is open exactly until 30 seconds after its report |
| Breaker.FailuresCount | internal/service/provider/runtime.go:53-57 | the failure count reaches n exactly when the latest n reports failed |
| Breaker.AdmissionsApart | internal/service/provider/runtime.go:43-46 | while not closed, two admissions have a report between them and lie 30 seconds or more apart |
| Breaker.AdmissionRate | internal/service/provider/runtime.go:37-48 | a span in which it is never closed admits at most one call and one more for every full 30 seconds |
| Breaker.InFlightBound | internal/service/provider/runtime.go:37-61 | while not closed, the calls left over beside the probe only go down, and at most one more than those is in flight |
| Breaker.InFlightExact | internal/service/provider/runtime.go:37-61 | in every continuation that is never closed at most n + 1 calls are in flight, if and only if at most n are left over beside the probe; for n = 0, one probe at most |
| Breaker.LeftoverLetsTwoIn | internal/service/provider/runtime.go:49-52 | a legal history with one leftover call and then two calls in flight while never closed |
| Breaker.CancellationCloses | internal/service/provider/executor.go:207-211 | a call whose caller cancelled closes the circuit, whatever the provider did |
| Amounts.ExponentExact | providers/amount.go:44-62 | for every text the search finds exactly the codes, and the runs of codes next to each other, of the two tables; all other texts have two decimals |
| Amounts.ExponentOfCode | providers/amount.go:44-62 | a text without a space inside is looked up as one code |
| Amounts.FormatAmountMinor | providers/amount.go:74-85 | the loop and the sign handling print what the text function says, with the wrap-around of negation |
| Amounts.PrintedExact | providers/amount.go:73-85 | a printed amount has a minus sign just when it is negative, a whole part without leading zeros and exactly as many decimals as the currency, and stands for the amount; except the least amount with decimals |
| Amounts.ParseAmountToMinor | providers/amount.go:88-121 | reads what the reading function says, including every error |
| Amounts.Scale | providers/amount.go:65-71 | the power of ten, without overflow |
| Amounts.ParsedExact | providers/amount.go:88-121 | text of sign, digits, point and no more digits than decimals is read as the exact value precisely when it fits 64 bits; the only error is a whole part that does not |
| Amounts.ParsedWhole | providers/amount.go:94-96 | without decimals, sign and digits are read exactly or refused for size; a bare sign is refused |
| Amounts.ReadsNumbersOnly | providers/amount.go:87-121 | text that is read holds nothing but digits, signs, space and, where there are decimals, at most one point |
| Amounts.TooPreciseRefused | providers/amount.go:105-107 | more digits after the point than the currency has are refused, even zeros |
| Text.TrimSpaceExact | providers/amount.go:89-92 | trimming takes exactly the space off both ends |
| Amounts.RoundTripExact | providers/amount.go:74-121 | reading a printed amount gives it back for all 64-bit amounts and currencies, if and only if it is not the least amount with three decimals |
| Amounts.LeastDinarsLost | providers/amount.go:79-84 | the least amount in Kuwaiti dinars is printed as text that reading refuses |
| Charges.CalculateCharge | internal/service/payment/orchestrator.go:291-294 | errors, the flat fee and the rounded share, by the rule of the service after defaults |
| Charges.PercentageExact | internal/domain/charges.go:77-92 | no intermediate leaves 64 bits and the result is the amount times the rate over ten thousand, rounded half up |
| Charges.ShareNearest | internal/domain/charges.go:77-92 | the fee is the whole number nearest to rate ten-thousandths of the amount, the larger of two as near |
| Charges.ShareAtMost | internal/domain/charges.go:77-92 | the fee is at most the amount |
| Charges.ShareMonotone | internal/domain/charges.go:77-92 | a larger amount or rate is never charged less |
| Charges.SplitFee | internal/domain/charges.go:77-92 | splitting a payment in two changes the total fee by at most one unit |
| Charges.SplitFeeTight | internal/domain/charges.go:77-92 | both bounds are reached |
| Sessions.Table.Live | internal/repository/app.go:106-118 | finds a session of the application and credential with that access token that is not expired and not revoked, or there is none |
| Sessions.Table.LiveByRefresh | internal/repository/app.go:120-131 | finds a session of the application and credential with that refresh token that is not expired and not revoked, or there is none |
| Sessions.Table.Rotate | internal/repository/app.go:132-145 | swaps the pair exactly on a row that still carries the previous refresh token, and leaves owner and revocation |
| Sessions.Table.Issue | internal/service/identity/app_auth.go:68-80 | the new or rotated session and the credential's stamp stand or fall together |
| Sessions.Table.Revoke | internal/repository/app.go:147-156 | stamps every covered session that was not revoked, and only those |
| Sessions.Table.DeleteExpired | internal/repository/admin.go:153-157 | removes exactly the rows that expired before the cutoff, and counts them |
| Sessions.StepKeeps | internal/service/identity/admin_auth.go:66-88 | every step of logins, refreshes, revocations and cleanups keeps the chain of issued pairs |
| Sessions.OnlyTheNewest | internal/repository/admin.go:115-134 | a token names a session exactly while it belongs to that session's latest pair |
| Sessions.RotatedOnce | internal/repository/app.go:132-145 | no refresh token is exchanged twice |
| Sessions.OneWinner | internal/service/identity/app_auth.go:91-108 | of any number of concurrent refreshes with one token, at most one is answered |
| Sessions.StaleForever | internal/repository/app.go:132-145 | a pair that was followed by another is dead in every later state |
| Sessions.RevokedForever | internal/repository/admin.go:136-151 | a revoked or deleted session never becomes live again under any of its tokens, not even those a refresh in flight still gets |
| Sessions.RevocationEnds | internal/repository/app.go:147-156 | from a revocation of an application, a credential or an access token on, no token of a session of that application, of that credential, or carrying that token is ever accepted again |
| Sessions.StampedBy | internal/repository/admin.go:136-151 | a session is revoked only by a revocation that named it, at that time |
| Sessions.AnsweredExact | internal/repository/admin.go:115-134 | a refresh is answered exactly when its session is still in the table and nobody has exchanged the token it holds; nothing but the pair and the expiry changes, so a revoked session stays revoked |
| Sessions.ReplayRefused | internal/repository/app.go:132-134 | an exchanged token matches no row, in the search or in the swap |
| Sessions.AnswerWorks | internal/service/identity/admin_auth.go:117-134 | in every later state of a run the access and the refresh token an answered refresh got work exactly while their session is there, was not rotated again, is not revoked and has not expired |
| Sessions.AnswerAfterRevocation | internal/repository/app.go:135-145 | a run that answers a refresh with tokens that work for nobody |
| Routing.SelectProvider | internal/service/routing/engine.go:40-65 | an error for a bad country or currency; else the first eligible route by priority and age, or none when none is eligible |
| Routing.IsCandidate | internal/service/routing/engine.go:124-152 | the checks in order decide candidacy: active account of that country and currency, loaded, able, breaker not open, no bad or unreadable health |
| Routing.EligibleExact | internal/service/routing/engine.go:124-152 | which routes can be chosen, in columns: active, for the service and method, account active in the country and currency, provider loaded, able and its circuit not open, and health absent, healthy or degraded |
| Routing.SupportsPair | providers/registry.go:65-73 | whether the pair is among the capabilities |
| Routing.AvailablePaymentMethods | internal/service/routing/engine.go:85-122 | an error for a bad filter, country or currency; else, strictly ascending, exactly the wanted pairs some eligible route serves |
| Routing.ListedExact | internal/service/routing/engine.go:72-75 | on one view a pair is listed if and only if the filter wants it and selection finds a route for it |
| Routing.ListedInOrder | internal/service/routing/engine.go:108-121 | the list is in order of service, then of method, and holds nothing twice |
| Routing.SelectedUpToTies | internal/repository/payments.go:169-179 | two selections on one view differ at most by a tie in priority and age |
| Routing.ChosenFirst | internal/repository/payments.go:169-179 | the chosen route has the lowest priority of all that can be chosen, and is the oldest of those with it |
| Routing.FallsBack | internal/service/routing/engine.go:106-108 | losing routes can only move the choice to a later one, and never moves it when the chosen one stays |
| Routing.NormalizeCurrency | internal/utils/currency.go:9-20 | accepts exactly three letters with any space around them, and gives those letters in capitals |
| Analytics.Periods | internal/service/identity/analytics.go:195-209 | the starts of as many buckets as it takes, cut off right after the limit |
| Analytics.Normalize | internal/service/identity/analytics.go:166-193 | accepts exactly the ranges of a known interval, non-empty, of at most 400 buckets |
| Analytics.RangeExact | internal/service/identity/analytics.go:166-193 | the range ends at the last whole hour up to the end asked for, or the first after now; starts at the last whole hour or day up to the start asked for, or thirty days before the end; and is accepted exactly when it is not empty and not longer than 400 hours or days |
| Analytics.IntervalExact | internal/service/identity/analytics.go:167-173 | hour and day may be written in any case with space around; blank means day |
| Analytics.Tiled | internal/service/identity/analytics.go:183-192 | an accepted range has 1 to 400 buckets; each moment in it lies in exactly one, the one its truncation names |
| Analytics.Sink | internal/service/identity/analytics.go:248-252 | one round of the sort, in place, orders one element more and keeps all of them |
| Analytics.SortedKeys | internal/service/identity/analytics.go:242-254 | the keys, strictly ascending, each once |
| Metrics.Fold | internal/service/identity/analytics.go:122-159 | every bucket, total and volume is the sum over the rows it is for; an error exactly when some row is in no bucket |
| Metrics.Transactions | internal/service/identity/analytics.go:100-164 | the report of that fold, with volumes by ascending currency |
| Metrics.TallyOne | internal/service/identity/analytics.go:136-153 | a row counts for its own period, service and currency, as a success just when its status is that, and as a failure just when its status is terminal otherwise |
| Metrics.TallyOfConcat | internal/service/identity/analytics.go:122-159 | tallies and amounts add up over any split of the rows |
| Metrics.SeriesAddsUp | internal/service/identity/analytics.go:120-159 | every column of the series sums to its total over all rows |
| Metrics.VolumesAddUp | internal/service/identity/analytics.go:154-163 | one volume per currency that occurs, ascending, counts summing to the total, amounts exact when they fit 64 bits |
| Metrics.TruncatedInRange | internal/service/identity/analytics.go:129-134 | the error is unreachable for rows truncated from creation times in the range |
| DummyLedger.Provider.Init | providers/dummy/provider.go:128-142 | a configured failure changes nothing; else the ledger is reset |
| DummyLedger.Provider.Apply | providers/dummy/provider.go:323-337 | moves the balance exactly when the record has succeeded and was not applied |
| DummyLedger.Provider.Pay | providers/dummy/provider.go:171-206 | refuses a cancelled call, an uninitialized provider, a service not enabled and the configured error without a trace; else stores the record and moves the balance at most once for this payment; one that succeeds at once adds a collection to a balance in range, and takes a disbursement from it as far as there is any |
| DummyLedger.Provider.QueryTransaction | providers/dummy/provider.go:208-232 | one step nearer the outcome, and the balance moved when it is reached with success |
| DummyLedger.Provider.SettleFromWebhook | providers/dummy/provider.go:312-321 | the status as told, no more counting down, and the balance moved on a first success |
| DummyLedger.Written | providers/dummy/provider.go:323-337 | whatever is written, each accepted payment has moved the balance at most once, exactly when its record is marked, and every success is marked |
| DummyLedger.NeverNegativeExact | providers/dummy/provider.go:330-336 | a balance starting at zero or more stays there exactly as long as no credit overflows |
| DummyLedger.CreditOverflows | providers/dummy/provider.go:336-336 | initialized with the most 64 bits hold, one collection of one unit leaves the least |
| DummyLedger.ForgivenExact | providers/dummy/provider.go:330-336 | without overflow the balance is at least the sum of its movements, and equal exactly when every debit was covered |
| DummyLedger.SettlesOnTime | providers/dummy/provider.go:185-226 | without webhooks a payment is processing until exactly the configured query, then has its outcome for good, and is applied then if it succeeded |
| DummyLedger.PaidExact | providers/dummy/provider.go:330-336 | on a balance in range a settled collection adds its amount and a disbursement takes it away, down to zero |
| DummyLedger.ReferenceInjective | providers/dummy/provider.go:186-186 | no two transactions share a reference |
| RuntimeSync.Providers.Reload | internal/service/provider/runtime.go:154-189 | rebuilds an active account, removes an inactive one, and on an error leaves the runtimes as they were |
| RuntimeSync.Providers.LoadActive | internal/service/provider/runtime.go:132-145 | succeeds exactly when every active account comes up, and then every active row has its runtime; the others that came up are loaded regardless |
| RuntimeSync.Providers.UpdateSettings | internal/service/provider/admin.go:139-195 | write, reload, and on failure write back, as the operation's function says |
| RuntimeSync.Providers.UpdateConfig | internal/service/provider/admin.go:209-245 | the same for the configuration and its version |
| RuntimeSync.Providers.Activate | internal/service/provider/admin.go:247-263 | the same for activation, which always writes back inactive |
| RuntimeSync.Providers.Deactivate | internal/service/provider/admin.go:265-273 | the row inactive and its runtime gone, or nothing changed |
| RuntimeSync.SucceedsExact | internal/service/provider/admin.go:139-273 | an operation succeeds exactly when the account exists, what to write is given and is written, and the adapter comes up wherever the account is, or becomes, active |
| RuntimeSync.SuccessTakesEffect | internal/service/provider/admin.go:139-273 | then the row has what was asked for and all else as it was, the runtime of an active row says what the row says, a deactivated account has none, and no other account is touched |
| RuntimeSync.FailureLeaves | internal/service/provider/admin.go:167-194 | a failure touches no runtime; the row is as before, inactive after a failed activation, or as asked for when it could not be written back |
| RuntimeSync.SyncedExact | internal/service/provider/admin.go:167-181 | active rows keep a runtime of their version, country, currency and configuration through an operation, if and only if it is not one whose rebuild and write-back both fail and whose columns differ |
| RuntimeSync.FailedUpdateUndone | internal/service/provider/admin.go:230-242 | a failed update whose write-back works leaves rows and runtimes exactly as they were |
| RuntimeSync.LeftoverExact | internal/service/provider/admin.go:252-260 | no runtime outlives its active row, except after a failed activation of an account already active |
| RuntimeSync.ReactivationLeavesRuntime | internal/service/provider/admin.go:252-260 | from one active account in step with its runtime, such an activation ends with the row inactive and the runtime loaded |
| RuntimeSync.RunSynced | internal/service/provider/admin.go:139-273 | through any run of operations with working write-backs, every active row has a runtime of its version, country and currency |
| RuntimeSync.VersionCountsChanges | internal/repository/payments.go:92-101 | a row's version has grown by the number of configuration changes that succeeded |

## Left out

- Notification of hooks: the change log holds an event at the moment its transaction commits; that the process may stop before telling the hooks, and the order in which hooks hear of changes, are not modelled.
- Row locks, isolation levels and SQL dialects: each `Within` block is taken to be atomic.
- Database.Store.PendingEvents: not oldest first, because event rows keep no creation time in the model.
- Cancelled contexts: a reconciliation whose caller gave up is a worker that stops.
- Order and limit of the batches: the workers of `Settlement` may take any due row, or any list of unprocessed events, which covers oldest-first with a limit.
- Progress: nothing is claimed about pending webhooks being applied in the end, since one failing event ends a pass and only the oldest are read.
- Deleting processed events: the repository function for it has no caller, and a delivery repeated after its row is deleted would be stored and applied anew.
- PollSchedule.PollsOnTime: stated for one worker and no webhooks, because several workers are not serialised and a webhook reschedules the row.
- Error codes, raw responses, redaction, audit records and logging: no effect on the modelled state.
- Provider choice, request validation, the request hook and fees inside `Create`: they come before the first write and may refuse, which is a parameter; so is the payment the request would insert. Fees and routing have modules of their own.
- Webhook secrets, signatures and JSON: an event arrives as the adapter reported it, and a stored event is read back as it was stored.
- SHA-256: taken to be injective, so keys and tokens are the hashed text or the token's number.
- Case mapping: `ToUpper`, `ToLower` and `EqualFold` are modelled on the characters whose result is an ASCII letter, and are the identity on the others; currencies, countries and status words are ASCII.
- Country codes: whether a text is a country is a parameter, as the region table is a library's.
- Provider calls, timeouts and the per-call deadline: a call returns any answer or an error.
- Repairing a dirty ledger by hand: blocked runs stay blocked in the model.
- Credentials, passwords, account locks and the signature and lifetime of tokens: `Sessions` starts where a verified token is looked up.
- Sessions.Table.Issue: the administrator's variant has no stamp, which is the case where stamping works.
- Charges: filling in the defaults, which the program does in place on a copy, is modelled on values.
- The database's collation: route queries sort texts by their bytes.
- Bucket labels: a label stands for the bucket's start; formatting and the SQL truncation expressions are not modelled, nor is a range given in a zone with daylight saving and without a start.
- Metrics: counts are unbounded; summed amounts wrap around at 64 bits.
- DummyLedger: latency is a flag that says whether the caller gave up first; parsing of the configuration, health checks and capabilities are left out, as they touch neither records nor balance.
- RuntimeSync: creating accounts, and operations on one account at the same time, which the code does not serialise.
- HTTP, middleware, pagination, permissions, configuration files and the schema migrations themselves: only easy members.
