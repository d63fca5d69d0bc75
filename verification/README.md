# Settlement, outbox, AI lease and evidence protocols

A Dafny model of the stateful protocols of a trade back office, with the properties that hold over
every run of them: the customer and supplier settlement ledgers, idempotent commands, the
transactional outbox and its consumer, the AI run lease, the request metrics cache, keyset
pagination, shipment milestones, and document version pinning.

`dafny verify dfyconfig.toml` checks the whole project (Dafny 4.11).

## How it is organized

| file | what it holds |
|---|---|
| `Prelude.dfy` | options, results, sums over sets, id order, repetition |
| `Settlement.dfy` | the append-only allocation table both ledgers share: sums, double summation, mirroring |
| `CustomerLedger.dfy` | receivables, receipts and rows; what a command reads (`Facts`), decides (`Verdict`) and writes (`Delta`); `Apply` and `Run` |
| `LedgerInvariant.dfy`, `LedgerLaws.dfy`, `InstallmentPlan.dfy`, `RefreshConvergence.dfy` | what every command keeps, and what follows: conservation, reversal erases, installments, refresh convergence |
| `AllocationAnswers.dfy`, `ReversalAnswers.dfy`, `BillingAnswers.dfy`, `LedgerTerms.dfy` | what each command answers and writes, over the tables alone; currencies and companies |
| `LedgerConcurrency.dfy`, `LockOrder.dfy`, `InterleavedReversal.dfy` | interleaved transactions with row locks: serializability, no wait cycles, lookups of a reversal |
| `CustomerService.dfy`, `ReceivableService.dfy` | the services statement by statement inside a unit of work, proved equal to the atomic commands |
| `Idempotency.dfy`, `PaymentRetries.dfy`, `KeyedConcurrency.dfy` | command keys: retry refinement, for any service, for the payment commands, and under interleaving |
| `SupplierLedger.dfy`, `SupplierInvariant.dfy`, `SupplierAnswers.dfy`, `SupplierService.dfy` | payables, the purchase cap, void, outgoing payments; what each command answers |
| `Outbox.dfy`, `OutboxTiming.dfy`, `OutboxRelay.dfy` | relay, recovery, broker, consumer and replay as one step relation; delays and timeouts; the relay's methods as runs of it |
| `AiRun.dfy`, `AiAnswers.dfy`, `AiRunner.dfy` | the run lease and its job row; what the replies lead to; `execute` as a run of the protocol |
| `RequestMetrics.dfy` | the LRU of per-organization buckets against its call trace |
| `KeysetPages.dfy` | cursor pages and the client's merging of them |
| `Shipments.dfy`, `ShipmentAnswers.dfy` | quantities per order line and the milestone machine; what each command answers |
| `DocumentPinning.dfy`, `ReviewGate.dfy`, `DocumentService.dfy` | document versions, storage pins, review release and download pointers |

Each protocol has one pure description (`Apply` or a step relation). Where the program updates rows
in place or loops, a class with methods does so too, and each method is proved equal to the pure
description; the properties are lemmas about the latter. The modules named after answers, terms, timing and
gates say what each command replies and writes without the functions that compute it.

## Readings of the program

- One organization. Money and quantities are integers in units of 10^-4: requests are limited to four
  decimals, where `quantize_money` changes nothing. Only the deposit of an order is rounded, half up.
- UUIDs are natural numbers, so that `ORDER BY id` means something; a fresh one is an argument that
  is not yet in its table. SHA-256 is injective: a checksum is the bytes, a content digest the facts.
- A command takes one reading of `today` and of `now`.
- Row ids of the allocation table are positions in it. `allocations()` is read in that order;
  `allocated_at, id` order differs from it only among rows of one timestamp.
- `OrderSettlementPort`, shipping progress and the sales module appear as order-status steps that
  touch no ledger row. The port moves an order between DEPOSIT_PENDING and EXECUTING in the transaction
  of the allocation or reversal itself; here that is a separate `MoveOrder`, so nothing is stated about
  order status and settlement together.
- Companies, suppliers and the sales orders of purchases are constant sets. An order is placed with
  its deposit between zero and its total, as a deposit rate between 0 and 1 gives it.
- An event has one consumer: the worker derives the consumer name from the event type, and the
  recovery looks for that name. So a receipt is keyed by its event.
- `reverse` filters a receipt's rows by kind. The method does so too; the atomic command takes all rows
  of the receipt, and `LedgerInvariant.ReceiptRows` shows that they are the same in a linked ledger,
  which every reachable one is (the method's precondition).
- In the interleaved model a statement is atomic, a row lock is held to the end of its transaction
  and taken only on rows that exist, and a lock waiter re-reads its row. `refresh_statuses` may pick any
  at most 500 lagging rows, which covers what `LIMIT ... FOR UPDATE` does under contention.
- The outbox step relation treats one transaction on one event as one step, except
  `recover_unconsumed`, which is two: its receipt check and its update are separated, because a
  consumer may commit its receipt between them.
- Tables of one id order stand for `ORDER BY created_at, id` where only a total order matters.

## Where a promise needs a condition

- Refresh: `Convergence` holds if and only if no stored status is ahead of the day. The time zone of
  an organization can be edited, so its day can go backwards; `BackwardsDayStaysWrong` gives the rows
  that the refresh query then never selects, and `BackwardsDayHappens` two commands that lead there.
- A consumed event: a receipt recovery that had selected the event before its receipt was committed
  still requeues it, and nothing else does (`ConsumedUntouched`); `ConsumedWhileRecovering` is a run
  that does so. The consumer's receipt makes the redelivery harmless.

## Model

| member | source | states |
|---|---|---|
| `Settlement.TotalExchange` | apps/api/app/finance/repositories.py:68-86 | double summation: adding the signed sums of all receivables weighs every allocation row exactly once |
| `Settlement.NetTotalsGet` | apps/api/app/finance/repositories.py:68-86 | `totals.get(id, 0)` on the grouped query is the signed sum of the id's rows, also when it has none |
| `Settlement.MirrorNet` | apps/api/app/finance/services.py:744-761 | mirroring a payment's rows takes exactly its own share off every receivable, however many rows it has there |
| `Settlement.RequestedSum` | apps/api/app/finance/services.py:482-492 | with no receivable named twice, the requested total is the sum of the amounts by receivable |
| `Settlement.AllocateNet` | apps/api/app/finance/services.py:580-610 | an allocation command raises each named receivable's net, and its share from unreversed receipts, by the requested amount and no other |
| `Settlement.ReverseLive` | apps/api/app/finance/services.py:744-790 | reversing takes a receipt's whole share, and never more than is there, out of the unreversed shares of a receivable |
| `Settlement.RowsOfInOrder` | apps/api/app/finance/repositories.py:149-167 | exactly the rows of one payment, in table order, each once |
| `CustomerLedger.ReversalOf` | apps/api/app/finance/repositories.py:142-147 | the reversal of a payment if there is one |
| `LedgerInvariant.AllocateKeeps` | apps/api/app/finance/services.py:580-610 | allocation keeps the whole invariant: rows linked, mirrors unique, receipts within their amount, net = unreversed shares, statuses right |
| `LedgerInvariant.ReverseKeepsMirrors` | apps/api/app/finance/services.py:744-757 | each reversal row mirrors one earlier allocation row of the receipt its payment reverses, and no row is mirrored twice |
| `LedgerInvariant.ReverseKeeps` | apps/api/app/finance/services.py:645-790 | reversal keeps the whole invariant |
| `LedgerInvariant.GenerateKeeps` | apps/api/app/finance/services.py:168-215 | newly issued receivables start unsettled with the right status and disturb nothing |
| `LedgerInvariant.RefreshKeeps` | apps/api/app/finance/services.py:270-280 | a refresh that re-derives statuses keeps the whole invariant |
| `LedgerInvariant.ReceiptRows` | apps/api/app/finance/services.py:687-695 | in a linked ledger the kind filter of `reverse` keeps every row of a receipt |
| `LedgerInvariant.ApplyKeeps` | apps/api/app/finance/services.py:108-801 | every command (create, allocate, reverse, generate, refresh, order moves) keeps the ledger and status invariant |
| `LedgerInvariant.RunKeeps` | apps/api/app/finance/services.py:58-70 | in every reachable ledger: 0 <= net <= amount; stored PAID iff net = amount iff `paid_at` is set; PARTIALLY_PAID iff 0 < net < amount; receipts within their amount; reversals linked one to one |
| `LedgerLaws.Conservation` | apps/api/app/finance/repositories.py:68-86 | the sum over receivables of signed allocations equals the sum over active receipts of their allocated amounts |
| `LedgerLaws.ReverseErases` | apps/api/app/finance/services.py:687-792 | right after a reverse, every net, and every status and `paid_at` it touched, is what the table without that payment's rows gives |
| `LedgerLaws.ErasedForGood` | apps/api/app/finance/services.py:744-790 | at any later time the reversed payment and its reversal can be left out of every net |
| `LedgerLaws.RepeatedReverse` | apps/api/app/finance/services.py:665-685 | a reverse of a reversed receipt changes nothing and returns the existing reversal |
| `LedgerLaws.SecondReverse` | apps/api/app/finance/services.py:665-685 | a second reverse, after any run of commands in between, adds no row and returns the first reversal |
| `AllocationAnswers.AllocateAccepted` | apps/api/app/finance/services.py:486-580 | an allocation goes through if and only if its receivables are distinct, known, of live orders, in the currency of an active receipt and of its company, within the receipt and within each balance |
| `AllocationAnswers.AllocateAnswers` | apps/api/app/finance/services.py:486-580 | which refusal it gets: the first failing check, and for several bad receivables the first in id order |
| `AllocationAnswers.AllocateRefused` | apps/api/app/finance/services.py:486-580 | each refusal is given only for its own reason, and leaves the tables as they were |
| `AllocationAnswers.AllocatePosts` | apps/api/app/finance/services.py:580-610 | exactly one row per item, in id order; PAID with `paid_at` when the balance is met, else PARTIALLY_PAID; nothing else changes |
| `ReversalAnswers.ReverseAnswers` | apps/api/app/finance/services.py:697-720 | in a reachable ledger an active receipt is reversed if and only if no row of it settles a receivable of a completed order or the deposit of an order with shipments; otherwise it is left for review |
| `ReversalAnswers.OtherAnswers` | apps/api/app/finance/services.py:657-685 | an unknown payment, a reversal, and an already reversed receipt |
| `ReversalAnswers.ReversePosts` | apps/api/app/finance/services.py:728-792 | one opposite row per row, in order; a reversal payment of the same company, currency and amount; statuses by what is left and the due date |
| `LedgerTerms.RowsKeepTerms` | apps/api/app/finance/services.py:547-568 | in every reachable ledger each row joins a payment and a receivable of one currency, of the company and in the currency of the receivable's order |
| `BillingAnswers.GenerateRefused` | apps/api/app/finance/services.py:118-200 | which generations are refused, and why |
| `BillingAnswers.GenerateIssued` | apps/api/app/finance/services.py:168-215 | a first generation adds the deposit and the rest, when positive, for the dates asked, unpaid, in the order's currency, and nothing else |
| `BillingAnswers.GenerateAgain` | apps/api/app/finance/services.py:140-166 | a repeat with the same dates returns the order's receivables and changes nothing |
| `InstallmentPlan.RunKeepsPlan` | apps/api/app/finance/services.py:143-215 | in every reachable ledger an order has each positive installment once, of the amount its order gives, or none at all |
| `InstallmentPlan.DepositWithinTotal` | apps/api/app/sales/order_services.py:239-240 | the rounded deposit of a rate between 0 and 1 is within the order total, and is it at rate 1 |
| `InstallmentPlan.OrderFullyBilled` | apps/api/app/finance/services.py:168-189 | in every reachable ledger, the installments of every order that has receivables sum to its total |
| `InstallmentPlan.LookupsNeverMiss` | apps/api/app/finance/services.py:665-761 | in reachable ledgers the dictionary lookups of `reverse` never miss, and a reversed receipt's reversal is found |
| `InterleavedReversal.ReversalReads` | apps/api/app/finance/services.py:687-742 | accepted or refused, an interleaved reversal of a receipt it found has read one consistent state of the tables |
| `InterleavedReversal.InterleavedLookupsNeverMiss` | apps/api/app/finance/services.py:744-761 | in no interleaving does a lookup of `reverse` miss, or the reversal of a reversed receipt go missing |
| `RefreshConvergence.RefreshProgress` | apps/api/app/finance/services.py:241-290 | one call changes every row it selects, and shortens the list of lagging rows by min(500, n) |
| `RefreshConvergence.Convergence` | apps/api/app/finance/services.py:58-70 | after ceil(n / 500) calls on one day every stored status is the derived one, if and only if none was ahead of that day |
| `RefreshConvergence.NeverAhead` | apps/api/app/finance/services.py:73-77 | as long as no command took a later day than today, in whatever order they took their days, no stored status is ahead of today |
| `RefreshConvergence.DailyRefreshConverges` | apps/api/app/finance/services.py:241-290 | so, when today is the latest day any command took, ceil(n / 500) calls make every stored status equal `status_for_receivable` |
| `BillingAnswers.RefreshedStatuses` | apps/api/app/finance/services.py:58-70 | after those calls each status is the one its net settlement and due date call for: PAID, PARTIALLY_PAID, OVERDUE, DUE or PENDING |
| `RefreshConvergence.BackwardsDayStaysWrong` | apps/api/app/finance/services.py:247-265 | after the day goes backwards, a stored OVERDUE that is no longer overdue stays wrong however often the refresh runs |
| `RefreshConvergence.BackwardsDayHappens` | apps/api/app/finance/services.py:247-265 | two commands from the empty ledger reach such a row: a balance due on day 4, issued on day 5, stays OVERDUE on day 4 |
| `RefreshConvergence.Picked` | apps/api/app/finance/services.py:247-266 | the first min(500, n) lagging rows in id order |
| `CustomerService.UnitOfWork.Commit` | apps/api/app/core/unit_of_work.py:25-27 | publishes the session's rows and keys together |
| `CustomerService.UnitOfWork.Rollback` | apps/api/app/core/unit_of_work.py:29-30 | the session sees the committed rows again; the database is untouched |
| `CustomerService.UnitOfWork.Exit` | apps/api/app/core/unit_of_work.py:32-41 | leaving without commit publishes nothing |
| `CustomerService.BeginCommand` | apps/api/app/platform/idempotency.py:14-57 | blank or overlong key refused; known key with another payload refused; known key returned; new key inserted in progress |
| `CustomerService.CheckAllocate` | apps/api/app/finance/services.py:504-570 | the checks of `allocate`, in order, refuse exactly as the atomic decision does |
| `CustomerService.PostAllocations` | apps/api/app/finance/services.py:580-610 | the posting loop: it raises iff some receivable would exceed its balance, and otherwise has posted exactly the requested rows and statuses |
| `CustomerService.Allocate` | apps/api/app/finance/services.py:472-643 | row-by-row allocation, with a raise half way rolled back, is the keyed submission of the atomic command |
| `CustomerService.Create` | apps/api/app/finance/services.py:411-470 | recording a receipt is the keyed submission of the atomic command |
| `CustomerService.ReducedShare` | apps/api/app/finance/services.py:759-761 | reducing `current_totals` row by row takes off the sum of the receipt's rows on each receivable |
| `CustomerService.PostReversals` | apps/api/app/finance/services.py:744-770 | the mirroring loop: raises iff a lookup misses, and otherwise has mirrored every row and re-derived every touched status from the final total |
| `CustomerService.Reverse` | apps/api/app/finance/services.py:645-801 | row-by-row reversal is the atomic command, and leaves the command keys alone |
| `ReceivableService.RefreshEach` | apps/api/app/finance/services.py:270-288 | the refresh loop re-derives exactly the selected rows, skipping those already right |
| `ReceivableService.RefreshStatuses` | apps/api/app/finance/services.py:241-290 | one call is one batch of the refresh: the first 500 lagging rows in id order, re-derived |
| `ReceivableService.DatesDiffer` | apps/api/app/finance/services.py:145-160 | whether a retried generation asks for other due dates than the existing receivables have |
| `ReceivableService.GenerateForOrder` | apps/api/app/finance/services.py:111-239 | installment generation is the atomic command, including retries and all refusals |
| `Idempotency.RetryRefinement` | apps/api/app/platform/idempotency.py:14-63 | any keyed stream, with repeats and failures, leaves the ledger of the stream with every request dropped whose key had completed; committed keys are exactly the successful ones |
| `Idempotency.Replay` | apps/api/app/platform/idempotency.py:35-47 | after a success, whatever came in between: same key and payload returns the original resource, another payload is refused, and neither changes anything |
| `Idempotency.KeyNeeds` | apps/api/app/platform/idempotency.py:22-23 | a key has 1 to 255 characters, not all of them white space |
| `Idempotency.SubmitAnswers` | apps/api/app/platform/idempotency.py:14-63 | invalid key, conflict, replay, failed command, or success: what each answers and what it leaves |
| `Idempotency.AtMostOnce` | apps/api/app/platform/idempotency.py:14-63 | no two requests with one key both take effect |
| `Idempotency.RecordStays` | apps/api/app/platform/idempotency.py:60-63 | a completed key row is never changed |
| `PaymentRetries.RetriesRefineLedger` | apps/api/app/finance/services.py:416-470 | for the payment commands: the keyed stream's ledger is the plain run of the kept commands |
| `KeyedConcurrency.CompletedSessions` | apps/api/app/platform/idempotency.py:25-41 | what a command saw of its key row under its advisory lock stays true through every commit, also when two keys share a lock id |
| `KeyedConcurrency.KeyedSerializable` | apps/api/app/platform/idempotency.py:14-63 | every interleaving of keyed requests and other commands leaves ledger and keys of their serial submission in commit order, with the same answers |
| `KeyedConcurrency.InterleavedRetries` | apps/api/app/platform/idempotency.py:14-63 | interleaved keyed payment commands leave the ledger of running each request once, in commit order, whose key had not completed |
| `LedgerConcurrency.LockTaken` | apps/api/app/finance/repositories.py:48-54 | a row read under its lock is current, and what was read before stays so |
| `LedgerConcurrency.ReceivablesRead` | apps/api/app/finance/repositories.py:56-66 | under its order's lock, the receivables read for an order are all there are |
| `LedgerConcurrency.KnowledgeSurvives` | apps/api/app/finance/services.py:653-723 | another transaction's commit leaves everything a transaction has read under lock as it was |
| `LedgerConcurrency.DecidesOnCommitted` | apps/api/app/finance/services.py:510-589 | under any interleaving, a command that goes through has decided on exactly one atomic reading of the committed tables |
| `LedgerConcurrency.Serializable` | apps/api/app/finance/services.py:819-837 | every interleaving of begin, lock, read, commit and abort leaves the tables of a serial run in commit order |
| `LedgerConcurrency.NeverOverAllocated` | apps/api/app/finance/services.py:510-589 | no interleaving allocates a receipt beyond its amount or a receivable beyond its balance |
| `LockOrder.AlwaysOrdered` | apps/api/app/finance/services.py:819-837 | what a transaction holds always comes before what it still wants in the order key, payment, orders, receivables, number sequence |
| `LockOrder.NoWaitCycle` | apps/api/app/finance/services.py:510-545 | no set of transactions ever waits in a circle |
| `LockOrder.SomeoneMoves` | apps/api/app/finance/services.py:653-702 | following the waiting from any transaction ends at one that can take its next step |
| `SupplierInvariant.AllocateKeeps` | apps/api/app/finance/supplier_services.py:341-410 | supplier allocation keeps net within each payable, payments within their amount, voided payables at zero and the purchase cap |
| `SupplierInvariant.ReversedNet` | apps/api/app/finance/supplier_services.py:442-487 | a reversal takes a payment's share off each payable and leaves a voided one at zero |
| `SupplierInvariant.PayableKeeps` | apps/api/app/finance/supplier_services.py:167-190 | a new payable keeps active principal within the purchase total |
| `SupplierInvariant.VoidKeeps` | apps/api/app/finance/supplier_services.py:224-235 | voiding an unsettled payable keeps the invariant and frees its principal |
| `SupplierInvariant.ReachableSettles` | apps/api/app/finance/supplier_services.py:109-521 | in every reachable ledger: 0 <= net paid <= amount, voided payables at zero, payments not overspent, active payables within their purchase |
| `SupplierInvariant.VoidedStaysAtZero` | apps/api/app/finance/supplier_services.py:224-235 | a voided payable has net zero for ever, even under later reversals |
| `SupplierInvariant.Conservation` | apps/api/app/finance/supplier_queries.py:49-68 | the payables' net paid sums to what unreversed payments no longer show as available |
| `SupplierInvariant.DisplayAgrees` | apps/api/app/finance/supplier_queries.py:22-46 | displayed balance is never negative, is zero exactly for PAID and VOIDED, and with the paid amount makes up the principal |
| `SupplierAnswers.AllocateAccepted` | apps/api/app/finance/supplier_services.py:341-388 | a supplier allocation goes through if and only if the payment is unreversed, at its version and has the money, and each payable is live, at its version, of the payment's supplier and currency, with the balance |
| `SupplierAnswers.AllocateAnswers` | apps/api/app/finance/supplier_services.py:329-388 | which refusal it gets: the first failing check of the first bad item |
| `SupplierAnswers.AllocatePosts` | apps/api/app/finance/supplier_services.py:389-410 | a row per item in request order, and one version bump of the payment and of each payable |
| `SupplierAnswers.ReverseAnswers` | apps/api/app/finance/supplier_services.py:436-446 | a payment is reversed exactly when it is unreversed and at its version |
| `SupplierAnswers.ReversePosts` | apps/api/app/finance/supplier_services.py:447-500 | an opposite row per row, a reversal of the same supplier, currency and amount, one version bump per payable |
| `SupplierAnswers.CreateAnswers` | apps/api/app/finance/supplier_services.py:122-190 | when a payable is created, and with which supplier and currency |
| `SupplierAnswers.VoidAnswers` | apps/api/app/finance/supplier_services.py:214-235 | when a payable is voided |
| `SupplierAnswers.RecordAnswers` | apps/api/app/finance/supplier_services.py:266-310 | when a payment is recorded, and which refusal otherwise |
| `SupplierAnswers.RowsKeepTerms` | apps/api/app/finance/supplier_services.py:374-381 | in every reachable ledger a payment settles only payables of its own supplier and currency |
| `SupplierAnswers.ShownStatus` | apps/api/app/finance/supplier_queries.py:22-33 | the displayed status, from void, net settlement and due date |
| `SupplierService.SupplierFinanceService.SumActive` | apps/api/app/finance/supplier_services.py:167-174 | the coalesced sum of a purchase's active payables |
| `SupplierService.SupplierFinanceService.CreatePayable` | apps/api/app/finance/supplier_services.py:109-203 | the atomic command: refusals in order, the cap, the new row |
| `SupplierService.SupplierFinanceService.VoidPayable` | apps/api/app/finance/supplier_services.py:205-248 | the atomic command: version, then void or settled refused |
| `SupplierService.SupplierFinanceService.RecordPayment` | apps/api/app/finance/supplier_services.py:250-313 | the atomic command |
| `SupplierService.SupplierFinanceService.CheckItems` | apps/api/app/finance/supplier_services.py:357-377 | the item checks refuse at the first bad item, with its first failing check |
| `SupplierService.SupplierFinanceService.Allocate` | apps/api/app/finance/supplier_services.py:315-420 | checks first, then one row and one version bump per item: the atomic command |
| `SupplierService.SupplierFinanceService.Reverse` | apps/api/app/finance/supplier_services.py:422-507 | one mirror per row, one version bump per payable, the original left alone: the atomic command |
| `Outbox.RowKept` | apps/api/app/platform/outbox.py:64-206 | every step keeps each row sound: PROCESSING iff locked, PUBLISHED only after a publish and with `published_at`, DEAD only at the last attempt, attempts counted |
| `Outbox.ExactlyOnceEffect` | apps/api/app/platform/outbox.py:216-241 | over every run a receipt exists iff the handler's effect was committed, and never twice |
| `Outbox.AttemptBound` | apps/api/app/platform/outbox.py:79-83 | since the last replay, claims are at most `max_attempts` plus stale recoveries |
| `Outbox.ConsumedUntouched` | apps/api/app/platform/outbox.py:165-206 | a published event with its receipt is changed by a step if and only if a recovery that had already selected it requeues it |
| `Outbox.ConsumedWhileRecovering` | apps/api/app/platform/outbox.py:121-163 | a run that reaches it: a late consumer commits its receipt after a recovery selected the event, which is then requeued |
| `Outbox.ConsumedForGood` | apps/api/app/platform/outbox.py:121-163 | a published event with its receipt, not held by a recovery, is never changed again |
| `Outbox.RankFalls` | apps/api/app/platform/outbox.py:155-190 | without stale recovery or replay every change of a row lowers 3 * (max - attempts) + status rank |
| `Outbox.AtMostThreePerAttempt` | apps/api/app/platform/outbox.py:155-190 | so an event sees at most 3 * max claims, marks and requeues |
| `Outbox.NeverLost` | apps/api/app/platform/outbox.py:100-163 | an unreceipted event has an enabled claim, recovery or requeue once its delay or timeout has passed; a dead one can be replayed |
| `Outbox.Deliver` | apps/api/app/platform/services.py:54-101 | from every reachable state some continuation delivers the event |
| `OutboxTiming.BackoffDoubles` | apps/api/app/platform/outbox.py:186-187 | the retry delay is 1 second at first, doubles each time and is capped at 300 |
| `OutboxTiming.FailedWaits` | apps/api/app/platform/outbox.py:176-190 | a failed row is dead at the last attempt; otherwise pending again after its delay and at most a fifth more |
| `OutboxTiming.NotBefore` | apps/api/app/platform/outbox.py:64-83 | whatever workers, recoveries and admins do, a pending row is left alone until its time has come |
| `OutboxTiming.ClaimNeeds` | apps/api/app/platform/outbox.py:64-83 | which rows can be claimed, and what a claim makes of them |
| `OutboxTiming.StaleNeeds` | apps/api/app/platform/outbox.py:100-119 | a row is stale after 300 seconds under lock; it is pending at once |
| `OutboxTiming.UnconsumedNeeds` | apps/api/app/platform/outbox.py:121-163 | a published row without receipt is requeued after 900 seconds, or dead at the last attempt |
| `OutboxTiming.PublishAnswers` | apps/api/app/platform/outbox.py:85-98 | what recording, a publish and a publish that raises leave on the row and the broker |
| `OutboxTiming.ReceiveAnswers` | apps/api/app/platform/outbox.py:216-236 | whether a delivery is acknowledged, waits, or opens a consumption |
| `OutboxTiming.CommitAnswers` | apps/api/app/platform/outbox.py:225-241 | receipt and effect commit together, after the handler, or not at all |
| `OutboxTiming.ReplayNeeds` | apps/api/app/platform/services.py:79-101 | only a dead row is replayed, and starts over |
| `OutboxRelay.Relay.ClaimBatch` | apps/api/app/platform/outbox.py:64-83 | claims exactly the first claimable rows, up to the limit |
| `OutboxRelay.Relay.RunOnce` | apps/api/app/platform/outbox.py:85-98 | publishes and marks every claimed message; the counts add up |
| `OutboxRelay.Relay.MarkPublished` | apps/api/app/platform/outbox.py:165-174 | marks only a row still PROCESSING under this worker's id |
| `OutboxRelay.Relay.MarkFailed` | apps/api/app/platform/outbox.py:176-190 | dead at the last attempt, otherwise pending again after 1, 2, 4, ... at most 300 seconds and at most a fifth more |
| `OutboxRelay.Relay.RecoverStale` | apps/api/app/platform/outbox.py:100-119 | one UPDATE is the run of the single recoveries of exactly the stale rows |
| `OutboxRelay.Relay.RecoverUnconsumed` | apps/api/app/platform/outbox.py:121-163 | requeues exactly the first overdue published rows without a receipt |
| `OutboxRelay.Consume` | apps/api/app/platform/outbox.py:216-241 | handled iff the receipt was new and the handler succeeded; a duplicate or a raise commits nothing; a delivery waits while another consumer holds the receipt |
| `OutboxRelay.ReplayEvent` | apps/api/app/platform/services.py:54-101 | admin replay: only a dead event, only with a reason of 1 to 1000 characters, only at the expected version if one is given; attempts start again |
| `AiRun.OneVerdict` | apps/api/app/ai/runner.py:230-275 | over all deliveries and crashes: at most one terminal outcome, run and job rows agree, output iff SUCCEEDED |
| `AiRun.Absorbing` | apps/api/app/ai/runner.py:69-74 | SUCCEEDED and FAILED are never left and never rewritten |
| `AiRun.OldAttemptIsFenced` | apps/api/app/ai/runner.py:230-233 | an execution whose attempt is not the newest changes neither row and commits no receipt |
| `AiRun.SuccessHasEvidence` | apps/api/app/ai/runner.py:124-140 | SUCCEEDED implies a committed successful call of the intent's required tool |
| `AiAnswers.SuccessWasAnswered` | apps/api/app/ai/runner.py:124-140 | over every run, SUCCEEDED goes back to a valid final answer to the very execution whose authorised commit, under its lease, made it so |
| `AiAnswers.TurnEnds` | apps/api/app/ai/runner.py:107-225 | each reply leads where the reference outcome says: on to the next turn, to a valid answer, or to its error |
| `AiAnswers.ValidAnswer` | apps/api/app/ai/runner.py:107-140 | an execution ends well if and only if a valid final answer is among its four turns, after turns that all went on, one of them a successful call of a required tool |
| `AiAnswers.FirstStop` | apps/api/app/ai/runner.py:114-228 | the first other reply makes it fail; only an unavailable provider is worth another attempt |
| `AiAnswers.DeliveryAnswers` | apps/api/app/ai/runner.py:71-100 | when a delivery takes the lease, and what it writes: a running run is left alone for 240 seconds; an attempt beyond the limit asks nothing |
| `AiAnswers.FinishAnswers` | apps/api/app/ai/runner.py:230-275 | the last transaction does nothing without the lease; otherwise it releases it, counts the verdict, and keeps the facts of a success as output |
| `AiAnswers.ReceiptCommitted` | apps/api/app/ai/runner.py:355-385 | each receipt transaction under the lease commits the next receipt of the turn, and then the execution goes where its turn led |
| `AiRun.WorkBound` | apps/api/app/ai/runner.py:83-119 | the provider calls of any run of the protocol, over all deliveries and crashes, number at most 4 * `max_attempts` |
| `AiRunner.AiRunner.TakeLease` | apps/api/app/ai/runner.py:69-100 | the lease transaction, with the job row in lockstep |
| `AiRunner.AiRunner.FinishJob` | apps/api/app/platform/domain_jobs.py:84-105 | retry iff the provider was unavailable and attempts are left; otherwise FAILED iff there is an error |
| `AiRunner.AiRunner.RecordCall` | apps/api/app/ai/runner.py:310-387 | the fenced receipt |
| `AiRunner.AiRunner.CommitRun` | apps/api/app/ai/runner.py:230-275 | the fenced commit |
| `AiRunner.AiRunner.Execute` | apps/api/app/ai/runner.py:69-275 | an uninterrupted execution is a run of the lease protocol; it returns without effect iff the run is terminal or leased, and otherwise commits what its replies call for: SUCCEEDED, PENDING again, or FAILED |
| `RequestMetrics.NewestIsRecent` | apps/api/app/core/observability.py:126-129 | being held is: called, and fewer than `capacity` other organizations called since |
| `RequestMetrics.Transition` | apps/api/app/core/observability.py:126-129 | move-to-end and eviction turn the last `capacity` distinct organizations of a trace into those of the longer trace |
| `RequestMetrics.CountersAgree` | apps/api/app/core/observability.py:130-137 | histogram sum = requests; server_errors <= errors <= requests |
| `RequestMetrics.OneMoreCall` | apps/api/app/core/observability.py:130-137 | what one call adds to each counter, the duration sum and maximum, and the histogram |
| `RequestMetrics.SlotMeans` | apps/api/app/core/observability.py:108-137 | the eight latency slots: up to 10, 50, 100, 250, 500, 800, 1000 milliseconds, and more |
| `RequestMetrics.RequestMetrics.Evict` | apps/api/app/core/observability.py:128-129 | the eviction loop keeps exactly the newest keys and their buckets |
| `RequestMetrics.RequestMetrics.Record` | apps/api/app/core/observability.py:121-137 | keeps: held keys are those of the trace, and each bucket is the fold of that organization's calls since its last insertion |
| `RequestMetrics.RequestMetrics.Snapshot` | apps/api/app/core/observability.py:139-142 | a bucket iff the organization is recent, summarizing its calls since then |
| `RequestMetrics.RequestMetrics.Open` | apps/api/app/core/observability.py:114-119 | a capacity below 1 is refused; otherwise the metrics start empty |
| `RequestMetrics.SlotFrom` | apps/api/app/core/observability.py:136-137 | the first latency bound not below the elapsed time, or the overflow slot |
| `KeysetPages.Descending` | apps/api/app/finance/repositories.py:131-133 | the rows, each once, strictly descending by (received_at, created_at, id) |
| `KeysetPages.NewestFirst` | apps/api/app/finance/repositories.py:131-133 | the list is by receipt time, then creation time, then id, each descending |
| `KeysetPages.ListedRows` | apps/api/app/finance/repositories.py:113-133 | the filtered rows, after a cursor only those later in that order |
| `KeysetPages.PageAnswers` | apps/api/app/finance/routers.py:190-215 | a cursor outside the filtered rows is refused; a page has at most `limit` rows and a next cursor only when full |
| `KeysetPages.TailIsRemaining` | apps/api/app/finance/repositories.py:113-133 | what follows the k-th row is exactly what the row comparison with that row selects |
| `KeysetPages.WalkComplete` | apps/api/app/finance/routers.py:190-215 | following next cursors terminates; the pages concatenate to the full filtered list in descending order, also when larger keys arrive; only the last page is short |
| `KeysetPages.CollectKeepsIds` | apps/web/lib/cursor-pages.ts:1-10 | merging pages by id loses none and repeats none |
| `KeysetPages.ClientSeesAll` | apps/web/lib/cursor-pages.ts:1-10 | the merged pages of a full walk are the whole list, once, in order |
| `Shipments.QuantitiesNest` | apps/api/app/fulfillment/order_queries.py:12-44 | over every run, per order line: departed <= ready <= planned <= ordered |
| `Shipments.QuantitiesNeverFall` | apps/api/app/fulfillment/order_queries.py:20-44 | all three sums never decrease |
| `Shipments.TimestampsExact` | apps/api/app/fulfillment/services.py:348-478 | a shipment at stage k has exactly its first k milestone timestamps, over every run |
| `Shipments.WantedOnLine` | apps/api/app/fulfillment/services.py:179-187 | order lines are distinct in a request, so at most one new item falls on each |
| `ShipmentAnswers.CreateAnswers` | apps/api/app/fulfillment/services.py:173-325 | a shipment is planned if and only if its lines are distinct, known, of executing orders, each within what the line has left; what it writes |
| `ShipmentAnswers.MoveAnswers` | apps/api/app/fulfillment/services.py:551-595 | a milestone is reached if and only if it is the next one, at the expected version, with sources in order, and from readiness to departure with its documents complete |
| `ShipmentAnswers.MoveRefused` | apps/api/app/fulfillment/services.py:551-681 | which refusal a milestone gets |
| `ShipmentAnswers.RepeatAnswers` | apps/api/app/fulfillment/services.py:559-571 | a repeat changes nothing; a booking may not be repeated with another reference |
| `Shipments.ShipmentService.AddItems` | apps/api/app/fulfillment/services.py:293-325 | the item loop raises iff some line would exceed its ordered quantity |
| `Shipments.ShipmentService.Create` | apps/api/app/fulfillment/services.py:173-346 | the atomic command; a refusal half way leaves nothing |
| `Shipments.ShipmentService.Transition` | apps/api/app/fulfillment/services.py:480-613 | the atomic command: version, sources, repeat, stage, documents, in that order |
| `DocumentPinning.PinnedForGood` | apps/api/app/documents/services.py:472-560 | over all races a set storage version id never changes and names stored bytes of the declared size and checksum |
| `DocumentPinning.NumbersExact` | apps/api/app/documents/services.py:251-285 | a document's version numbers are exactly 1 to latest, each once |
| `DocumentPinning.OnlyReleasedFiles` | apps/api/app/documents/services.py:632-709 | a pointer issued without profit permission has a digest that a review released, and names stored bytes matching it |
| `ReviewGate.WithdrawnForGood` | apps/api/app/documents/review.py:176-182 | after a decision not to release, and until a new release, no pointer and no URL for a caller without profit permission, whatever was read before |
| `ReviewGate.ReleaseOpens` | apps/api/app/documents/review.py:150-182 | right after a release the pointer to exactly that file is handed out to every caller |
| `ReviewGate.ReleaseStays` | apps/api/app/documents/review.py:60-68 | and stays available until the next decision or a change of file or title |
| `ReviewGate.ReviewNeeds` | apps/api/app/documents/review.py:150-176 | which decisions are accepted |
| `ReviewGate.PointerNeeds` | apps/api/app/documents/services.py:677-709 | which pointers are handed out to whom |
| `ReviewGate.DigestTells` | apps/api/app/documents/review.py:40-57 | the content digest tells every file version and title apart |
| `ReviewGate.VersionMoves` | apps/api/app/documents/services.py:519-560 | which steps move a version between its states, and which facts they may change |
| `ReviewGate.ReplaceAnswers` | apps/api/app/documents/services.py:240-285 | a replacement needs the expected document version and adds a pending version under the next number |
| `ReviewGate.CompletionWrites` | apps/api/app/documents/services.py:519-560 | what the locked half of completion writes in each state of the version |
| `DocumentService.DocumentService.ReadVersion` | apps/api/app/documents/services.py:433-471 | the read transaction of completion takes the declared facts and the pin, and writes nothing; a missing version is refused |
| `DocumentPinning.StepKeeps` | apps/api/app/documents/review.py:113-180 | upload, replacement, overwrite, completion, scan, review and download keep the evidence invariant |
| `DocumentService.InspectBytes` | apps/api/app/documents/storage.py:85-104 | folding the chunks of one immutable object version gives its size and digest |
| `DocumentService.DocumentService.ReplaceUpload` | apps/api/app/documents/services.py:240-285 | a replacement takes the next version number, iff the expected document version matches |
| `DocumentService.DocumentService.InspectUpload` | apps/api/app/documents/services.py:472-504 | passes only an object that matches the declared size, checksum and type |
| `DocumentService.DocumentService.CommitUpload` | apps/api/app/documents/services.py:505-588 | pins under the row lock: first completion sets, later ones leave the pin; rejected rows refuse |
| `DocumentService.DocumentService.LatestPointer` | apps/api/app/documents/services.py:653-709 | with no version named, the pointer is that of the version numbered latest |
| `DocumentService.DocumentService.DownloadPointer` | apps/api/app/documents/services.py:653-709 | a pointer only to an available, pinned version, and without profit permission only to a released one |
| `DocumentService.DocumentService.Issue` | apps/api/app/documents/services.py:632-651 | the URL is issued iff the pointer is unchanged after signing |

## Left out

- Permission checks, role tables, tenant filters, request parsing, audit, activity, notification and event payload text.
- Command keys of the supplier, shipment and document commands: the same mechanism as for payments, which is modelled once, generically, and instantiated for payments.
- Interleavings of supplier, shipment and document row locks: their commands are atomic here, except that a completion and a download are split at their storage calls.
- Version counters that the ORM bumps by itself: only the explicit bumps of the supplier commands, and one bump per changed shipment, document and document version row.
- Foreign-key and key-share locks, and the text of document numbers: a number sequence is only a lock, taken last.
- Floating-point rounding of durations and of the back-off jitter: both are real numbers.
- Storage without versioning: `inspect` refuses it before anything is written, so storage is versioned throughout.
- Upload links of a document and its resumption URL: `_resume_upload` reads only.
- Lead, opportunity, customs, refund, expense, text review and member administration tables: independent single-row transitions.
- CustomerService.BeginCommand: only ASCII white space counts as blank, because characters have no Unicode classes here; the advisory lock is in KeyedConcurrency.
- CustomerService.Allocate: the order-status move of the settlement port in the same transaction is a separate step.
- CustomerService.Reverse: the order-status move of the settlement port in the same transaction is a separate step.
- ReceivableService.GenerateForOrder: replies in id order, not by receivable number, because document numbers are not modelled.
- SupplierService.SupplierFinanceService.CreatePayable: the purchase is read once, not again under its lock, because commands are atomic here.
- OutboxRelay.Relay.ClaimBatch: id order stands for `created_at, id`; rows locked by other transactions are those held by a recovery.
- OutboxRelay.Relay.RecoverUnconsumed: the consumer prefix and the timeout are the values the worker task uses, so their refusals cannot arise.
- OutboxRelay.ReplayEvent: the row's version is an argument; bumping it is not modelled.
- AiRunner.AiRunner.Execute: token counts, cost estimates, turn content, tool arguments, references and the artifact; a provider turn is one of its outcomes.
- Shipments.ShipmentService.Create: the forwarder role check and the planned dates.
- Shipments.ShipmentService.Transition: the command key, and the document checklist, which is one flag.
- DocumentService.DocumentService.ReplaceUpload: the link targets and the command key.
- DocumentService.DocumentService.CommitUpload: the reauthorization of links, and the scan job that the first completion queues.
- Document type and file name: never changed after creation, so the content digest leaves them out.
