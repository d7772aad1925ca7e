# Warehouse, ledger and import: a verified model

This project models the part of the B2B stock management system in which several services change the same
database: orders and reservations, warehouse work and shipments, stock counts, stock in and stock corrections,
returns and credits, settlements and payments, the stored command results, and beside them the CSV export and the
initial CSV import. It proves what these services keep true together, over every run of commands.

## How it is laid out

- `Tables`, `Totals`, `Sums`, `Taxes`, `Calendar`: the rows of the database, the column totals the queries take over
  them, the rounding arithmetic and the due dates.
- `OrderService`, `StockCountService`, `CatalogService`, `ReturnService`, `ReceivableService`: each command as a
  function from the database before to the committed database and reply, or to a rejection.
- `Store`, `OrderCommands`, `StockCountCommands`, `CatalogCommands`, `ReturnCommands`, `ReceivableCommands`: the same
  commands as the source runs them, one statement after another on a shared `Database` object, with the source's
  loops and running counters. Each is proved to commit exactly what the function says. What a rejected command had
  already written is rolled back by `Transactions.Server.Handle`.
- `Commands`: one datatype for all commands, one step (`Next`) with the lookup and storage of results, and runs.
- `StockInvariant`, `SalesInvariant`, `BooksInvariant`, gathered in `Invariant`: what every command keeps. The
  `…Proofs` and `…Invariant` modules beside them hold the proofs per command.
- `Guarantees`, `Ledger`, `OrderTerms`, `CountFreeze`, `CancellationSafety`, `WorkSafety`, `Provenance`, `ExactlyOnce`,
  `SettlementHistory`, `DeadGuards`, `IntegrityChecks`: statements about all runs.
- `StockCountGreedy`, `CountEffects`, `OrderEffects`, `ReservationEffects`, `WarehouseEffects`, `ShipmentEffects`,
  `ReturnEffects`, `PaymentEffects`: what single commands do, stated without their loops: when they succeed, what
  exactly changes, and what the caller is told.
- `FalseAlarms`: two conditions of the operator's integrity queries that correct runs violate.
- `LateEntries`: a run to an early full tax return and to a refund no settlement can bill.
- `Csv`, `CsvExport`: the character state machine of the reader against a grammar, and the round trip with the
  writer (section 2 of RFC 4180, rules 5 to 7).
- `ImportParser`, `ImportService`, `ImportCommands`, `ImportProofs`: the initial import. `ImportRows` and
  `ImportFaults` state the parser on the cells of a file, `ImportEffects` the import on its rows and the tables.
- `SkuRoots`, `SiteRuns`: commands, imports and changes of master data in one run, where the parties and products a
  command names are looked up in the catalog the imports write.
- `StockFiles`, `ImportCases`: two import files, as text, and what becomes of them.

A few lemmas only spell out one call and are no results of their own: `ReturnEffects.RequestSucceeds`,
`ReturnEffects.AllocationExact`, `ExactlyOnce.RefusedAnyway`, `SettlementHistory.RefundLandsInOpenMonth` and
`CsvExport.ExportIsNoFormula`.

A row's identifier is its position in its table: identifiers are opaque and fresh, and rows are never deleted.
Tables that a UNIQUE constraint ties one-to-one to another are kept in that table's row. What a command reads outside
these tables is a parameter of the command: the time and the identifier of a new order, today's date, the offer
found for a product, whether the named parties are known and active, a customer's due day, and the platform's
conversion to upper case.

## Where the code does not do what one would expect

Each of these is proved with the exact condition; the code is modelled as it is.

- Return tax is said to leave no balance of one won after a full return, and does. But the whole tax can be taken
  back before the last unit: exactly when the tax on the units not yet credited rounds to nothing
  (`Taxes.ShareIsWhole`, `Ledger.TaxFullyReturned`; `LateEntries.TaxComesBackEarly` is a run,
  `Taxes.ShareCanBeEarly` its arithmetic).
- The integrity query on finalized counts reports correct databases: a count goes on covering what is reserved unless
  an order takes more than is left of what was counted, and stock received since then is not considered
  (`FalseAlarms.CoverageLost`; `FalseAlarms.CountFallsBehind` is a run).
- The integrity query on work assignments reports correct databases too: only finalizing a count can leave an order
  assigned with nothing to ship, and it does exactly when no line of the order survives the cut
  (`FalseAlarms.AssignedKeepWork`, `FalseAlarms.FinalizeLeavesWork`; `FalseAlarms.AssignmentOutlivesWork` is a run).
- An entry can be dated into a month already drafted. It is then never billed: while its customer is active, an
  unbilled entry can still be billed exactly when the customer has no settlement for its month
  (`SettlementHistory.BillableExactly`). A refunded credit is moved on by one month only, so it lands in a closed month
  exactly when its own and the next are closed (`SettlementHistory.RefundLandsInOpenMonth`;
  `LateEntries.RefundComesTooLate` is a run, `LateEntries.RefundIsNeverBilled` says how it goes on).
- The import does not look for a running stock count. It ends the freeze exactly when it stocks a SKU under count
  (`ImportProofs.ImportKeepsFreezeUnless`, `SiteRuns.AdvanceKeepsFreezeUnless`; `ImportCases.StockArrivesDuringCount` is
  a run). Everything else goes on holding (`SiteRuns.SiteAlwaysOk`).
- The import's parser accepts quantities that no integer column can hold, and texts with the character U+0000. The
  analysis does too; the database refuses such a file (`ImportProofs.FilesViolateExactly`;
  `ImportCases.TooManyIsRefused` is a file). A count's result beyond the column is refused in the same way
  (`StockCountInvariant.FinalizeNeverStuck`).
- The parser compares prices and stocks by two codes joined by a colon. It refuses a file for rows about different
  things exactly when a colon in their codes can be taken for the one between them (`ImportRows.PairsReadAlike`,
  `ImportRows.FileErrors`; `ImportRows.FalseDuplicate` is a file). A code that is just a colon counts as missing.
- Drafting and finalizing a settlement store no result; sent again they are refused instead of replayed
  (`SettlementHistory.UnstoredTwice`).
- A stored result is looked up by actor, command type and request identifier only: a retry with other arguments gets
  the first reply, and an input that is refused before the lookup is refused even as a retry
  (`ExactlyOnce.RetryIsReplayed`).

## Model

| member | source | states |
|---|---|---|
| Invariant.ReachableInv | apps/api/src/orders/order.service.ts:64-82 | from an empty database no run of commands, in any interleaving, breaks the stock, sales or book invariant |
| Invariant.ApplyKeeps | apps/api/src/orders/order.service.ts:64-76 | every committed transaction of the five services keeps the whole invariant |
| Guarantees.BalancesAgree | apps/api/src/orders/order.service.ts:84-104 | after any run, a SKU's reserved balance is what its active reservations still hold, its stock on hand is the sum of its movements, and 0 <= reserved <= on hand |
| Guarantees.WorkStaysInLine | apps/api/src/orders/order.service.ts:299-337 | after any run, 0 <= inspected <= picked <= quantity - shipped on an active reservation and no work on any other; shipped <= reserved <= requested; a reservation is active exactly while it holds something |
| Ledger.EventsReplay | apps/api/src/orders/order.service.ts:517-521 | the reservation events replay to the state: created - freed - sent is what the line holds, created - freed its reserved counter, sent its shipped quantity |
| Ledger.GoodsConserved | apps/api/src/returns/return.service.ts:162-169 | after any run, receipts + corrections of a SKU = on hand + shipped - returned in good order |
| OrderInvariant.SubmitKeeps | apps/api/src/orders/order.service.ts:116-140 | submission keeps the stock invariant |
| OrderInvariant.ConfirmKeeps | apps/api/src/orders/order.service.ts:495-528 | confirmation keeps the stock invariant: what is reserved on lines, reservations, events and balances agrees |
| OrderInvariant.AllocateKeeps | apps/api/src/orders/order.service.ts:530-574 | allocation keeps it for a new, an active, a fully shipped and a reopened released reservation |
| OrderInvariant.SetWorkKeeps | apps/api/src/orders/order.service.ts:299-337 | picking and inspecting keep it |
| OrderInvariant.ShipKeeps | apps/api/src/orders/order.service.ts:426-493 | shipping several lines in part keeps it |
| OrderInvariant.CancelKeeps | apps/api/src/orders/order.service.ts:576-597 | cancelling keeps it |
| OrderInvariant.RequestCancellationKeeps | apps/api/src/orders/order.service.ts:599-622 | requesting a cancellation keeps it: the order loses its worker and its picked quantities |
| OrderInvariant.ReviewKeeps | apps/api/src/orders/order.service.ts:624-655 | approving or rejecting a cancellation keeps it |
| StockCountInvariant.FinalizeKeeps | apps/api/src/stock-counts/stock-count.service.ts:61-88 | finalizing a count keeps it, whatever is released |
| DeadGuards.NoDefensiveAnswer | apps/api/src/stock-counts/stock-count.service.ts:71-80 | after any run no command is answered with one of the defensive rejections: reservations that cannot be reconciled, stock picked during a count, reserved inventory unavailable, and the others a correct database excludes |
| DeadGuards.ShipCovered | apps/api/src/orders/order.service.ts:460 | the reserved-inventory check of shipping never fires |
| DeadGuards.ReleaseOrderCovered | apps/api/src/orders/order.service.ts:91-95 | the reserved-inventory check of releasing an order never fires |
| StockCountInvariant.FinalizeNeverStuck | apps/api/src/stock-counts/stock-count.service.ts:66-86 | none of its three defensive failures can stop a running count: it is finalized with every non-negative result its integer column can hold, and refused by the column for any larger one |
| StockCountGreedy.FinalizeExact | apps/api/src/stock-counts/stock-count.service.ts:66-84 | a count ends with stock on hand = counted and reserved = min(reserved, counted); each open reservation of the SKU loses what newer orders could not cover, at most all it has left; no other line changes |
| StockCountGreedy.OlderLosesLast | apps/api/src/stock-counts/stock-count.service.ts:66-79 | an older reservation loses units only if every newer one lost all it held |
| StockCountGreedy.OnePartialCut | apps/api/src/stock-counts/stock-count.service.ts:74-79 | at most one reservation is cut without being released |
| StockCountGreedy.LossesMakeUpShortage | apps/api/src/stock-counts/stock-count.service.ts:73-79 | the units taken from the lines of the SKU are exactly max(0, reserved - counted) |
| CountEffects.NewestLoseFirst | apps/api/src/stock-counts/stock-count.service.ts:66-79 | of two open lines of the counted SKU the one whose order has the later creation time, or the same time and the larger identifier, has given up everything before the other gives up a unit |
| CountEffects.FinalizeOutcome | apps/api/src/stock-counts/stock-count.service.ts:61-88 | a count can be finalized exactly while it runs, with a result the column holds; then the balance, the count row, the correction, every line and the reply are written out |
| CountEffects.StartExact | apps/api/src/stock-counts/stock-count.service.ts:45-59 | a count starts exactly when the SKU has a balance, is not being counted and has nothing picked; the row keeps the balance it found |
| CountEffects.CancelExact | apps/api/src/stock-counts/stock-count.service.ts:90-93 | a running count, and no other, is abandoned; nothing else changes |
| CountFreeze.CountedSkuIsFrozen | apps/api/src/stock-counts/stock-count.service.ts:45-59 | while a count runs, in any interleaving with other commands, the SKU's balance is the count's snapshot, its reservations are unchanged, and nothing of it is picked or inspected |
| CountFreeze.ReachableSnapshots | apps/api/src/stock-counts/stock-count.service.ts:45-59 | after any run of commands every running count finds the balance it started from |
| CountFreeze.ApplyKeepsSnapshots | apps/api/src/stock-counts/stock-count.service.ts:45-59 | every command keeps the balances of all running counts equal to the snapshots they started from |
| CountFreeze.ApplyFreezes | apps/api/src/stock-counts/stock-count.service.ts:45-93 | no command but the end of the count touches a running count or what it counts |
| CountFreeze.ClosingCloses | apps/api/src/stock-counts/stock-count.service.ts:61-93 | finalizing or cancelling a count closes it |
| OrderTerms.SubmittedIsHonoured | apps/api/src/orders/order.service.ts:116-140 | after a successful submission, in every continuation each item has its line, is never shipped beyond the quantity asked for, and is charged to the order's customer at the price and tax of the submission, for exactly what was shipped |
| OrderTerms.TermsAreFixed | apps/api/src/orders/order.service.ts:121-134 | customer, warehouse, product, quantity, price and tax of an order never change in any run |
| ReservationEffects.ConfirmExact | apps/api/src/orders/order.service.ts:495-528 | confirming succeeds exactly for a submitted order without a product under count; each line then holds min(requested, available), and the reply adds it up |
| ReservationEffects.AllocateExact | apps/api/src/orders/order.service.ts:530-574 | allocating succeeds exactly for a confirmed order without pending cancellation or product under count; each line gets min(still waiting, available), and the reply adds it up |
| ReservationEffects.AllocationAdds | apps/api/src/orders/order.service.ts:547-568 | whatever state its reservation was in, a line that is given more holds exactly that much more and keeps its shipped and picked units; a released reservation is reopened without its old quantity |
| ReservationEffects.ReleaseOrderExact | apps/api/src/orders/order.service.ts:84-104 | an order can be released exactly when nothing it holds is under count; then every line gives up all it holds and all its work, and the number of freed units is what the order held |
| OrderEffects.SubmitExact | apps/api/src/orders/order.service.ts:116-140 | an order is taken exactly when its parties are active, its items are different, offered products in positive quantities and its identifier is new; the order with its time and identifier, and every line, are stored as given |
| OrderEffects.ClaimExact | apps/api/src/orders/order.service.ts:249-270 | work is taken exactly on a confirmed order that holds something, of which nothing is counted, with no pending cancellation and no other worker |
| OrderEffects.ReleaseWorkExact | apps/api/src/orders/order.service.ts:272-289 | only the worker who has an order gives it back |
| OrderEffects.CancelExact | apps/api/src/orders/order.service.ts:576-597 | an order is cancelled exactly when it is confirmed, without pending request, and nothing it holds is counted; it gives up all it holds, and the reply says how much that was |
| OrderEffects.RequestCancellationExact | apps/api/src/orders/order.service.ts:599-622 | a customer asks to cancel exactly an own, confirmed, not fully shipped order that is not under review; the order loses its worker and all its work, and nothing else |
| OrderEffects.ReviewExact | apps/api/src/orders/order.service.ts:624-655 | a pending request is rejected always and approved exactly when nothing of its order is counted; rejecting changes the request only, approving cancels the order, frees what it holds and reports how much that was |
| WarehouseEffects.SetWorkExact | apps/api/src/orders/order.service.ts:299-337 | work is recorded exactly when the worker holds the order, no cancellation is pending and every quantity fits; the named quantities are then set, and no other |
| WarehouseEffects.ShipSucceeds | apps/api/src/orders/order.service.ts:426-460 | a shipment is created exactly when its reservations are of one order and warehouse, no other worker holds the order, no cancellation is pending, and every quantity is inspected and not under count |
| WarehouseEffects.ShipExact | apps/api/src/orders/order.service.ts:455-480 | a shipment sends exactly the picked quantities, one shipment line per pick with the next ledger entry, and reports their total |
| ShipmentEffects.ShipCharges | apps/api/src/orders/order.service.ts:455-475 | a shipment appends one entry per pick, in their order, dated today: its customer, shipment line, quantity, price and supply are written out |
| ShipmentEffects.ShipAssigns | apps/api/src/orders/order.service.ts:438-486 | the shipment is of one order and warehouse; its worker has the order afterwards exactly while something of it is still open, otherwise nobody has |
| WarehouseEffects.ReceiveExact | apps/api/src/catalog/catalog.service.ts:147 | a receipt is booked exactly when its parties are known and its rows are known products, each once, with positive quantities and not under count; each SKU's stock then grows by its row and nothing is reserved or freed |
| WarehouseEffects.AdjustExact | apps/api/src/catalog/catalog.service.ts:146 | a correction is booked exactly when the SKU has a balance, is not under count and keeps what its lines hold; only that SKU's stock changes, by the difference |
| ReturnEffects.RequestExact | apps/api/src/returns/return.service.ts:68-80 | a return request asks for exactly its rows on each shipment line |
| ReturnEffects.InspectExact | apps/api/src/returns/return.service.ts:151-178 | an inspection is booked exactly when it adds up, does not exceed what is to come and puts nothing on a counted shelf; the good units alone are back in stock, and all are counted as received |
| ReturnEffects.CreditExact | apps/api/src/returns/return.service.ts:180-209 | an inspection is credited once, for no more than it received; its customer then owes exactly the price and the growth of the tax share less, nobody else's ledger moves |
| ReturnEffects.CreditPosted | apps/api/src/returns/return.service.ts:191-208 | the credit is written to its inspection and posted today, or on the first of the next month exactly when a line of a finalized settlement names the entry of the shipment; all fields of entry, credit and reply are written out |
| ReturnEffects.RequestWritten | apps/api/src/returns/return.service.ts:53-82 | a request whose rows are of one shipment to the customer and within what was not asked back yet is stored as it came, each line with the SKU that was shipped |
| ReturnEffects.InspectWritten | apps/api/src/returns/return.service.ts:151-178 | the inspection and the line are written as reported; the return is inspected once all its lines are back in full, and being inspected until then |
| ReturnEffects.DisposeExact | apps/api/src/returns/return.service.ts:123-141 | a decision on defects is booked exactly within the units not decided on, to an active supplier if to one; quantity and fate are stored as given |
| ReturnEffects.ResolveExact | apps/api/src/returns/return.service.ts:149 | quarantined units are resolved exactly within what is unresolved, and not into quarantine again; quantity and fate are stored as given |
| ReturnEffects.RefundExact | apps/api/src/receivables/receivable.service.ts:49 | a refund uses up its amount of its source; out of a credit it takes the credit off the ledger of the customer it was granted to, out of a payment it leaves every ledger alone |
| PaymentEffects.DraftSucceeds | apps/api/src/receivables/receivable.service.ts:45 | a month is drafted exactly once, for an active customer, if its ledger has an entry of the month without a settlement line |
| PaymentEffects.DraftExact | apps/api/src/receivables/receivable.service.ts:45 | the draft has exactly one line per such entry, with its amounts; header and reply add them up |
| PaymentEffects.FinalizeExact | apps/api/src/receivables/receivable.service.ts:46 | a draft, and nothing else, is finalized, once, due on its day in the next month or that month's last |
| PaymentEffects.PayExact | apps/api/src/receivables/receivable.service.ts:47 | a payment is recorded exactly for a known customer and a positive amount, with that customer and that amount; the reply has both |
| PaymentEffects.AllocateExact | apps/api/src/receivables/receivable.service.ts:48 | an allocation is booked exactly for a recorded payment and a finalized settlement of one customer, once per pair, within what either has left |
| PaymentEffects.VoidExact | apps/api/src/receivables/receivable.service.ts:50 | a recorded payment without refunds is voided; each of its allocations is reversed once, and no other |
| PaymentEffects.RefundOfPayment | apps/api/src/receivables/receivable.service.ts:49 | a refund of a payment is booked exactly under a new reference and within what the payment has left |
| PaymentEffects.RefundOfCredit | apps/api/src/receivables/receivable.service.ts:49 | a refund of a credit is booked exactly under a new reference and within what the credit has left, and posted on its date, or on the first of the next month exactly when the customer's month is finalized |
| CancellationSafety.CancelledForGood | apps/api/src/orders/order.service.ts:576-655 | once an order is cancelled it holds no active reservation, and neither it nor its lines ever change again |
| CancellationSafety.NothingShipsUnderReview | apps/api/src/orders/order.service.ts:599-655 | until the request is reviewed its order stays confirmed and unassigned, nothing of it is picked, and its shipped quantities do not change |
| CancellationSafety.CancelledRefuses | apps/api/src/orders/order.service.ts:576-597 | every order, work and shipment command about a cancelled order is refused; returns and credits of what it had shipped are not such commands and go on |
| CancellationSafety.PendingRefuses | apps/api/src/orders/order.service.ts:599-622 | while a cancellation is under review every other order, work and shipment command about its order is refused; returns and credits of shipped goods go on |
| WorkSafety.OnlyWorkersWork | apps/api/src/orders/order.service.ts:299-337 | after any run, a call that picks, inspects or ships anything of an order is by the worker who has it, or ships an order nobody has |
| WorkSafety.WorkersTookTheirOrders | apps/api/src/orders/order.service.ts:249-270 | after any run, a worker who has an order claimed it or shipped by a call of its own |
| WorkSafety.OrdersAreTaken | apps/api/src/orders/order.service.ts:249-289 | of all commands only a claim or a shipment gives an order to a worker, to its caller, and only if it was nobody's |
| Provenance.EveryStateHasItsCall | apps/api/src/orders/order.service.ts:64-76 | after any run every order, cancellation request, count, settlement and payment has the calls that brought it into its state, with their customers, times, amounts and results |
| Provenance.OrdersMove | apps/api/src/orders/order.service.ts:495-655 | no command moves an order but from submitted to confirmed by its confirmation, and from confirmed to cancelled by its cancellation or the approval of a pending request for it |
| Provenance.RequestsMove | apps/api/src/orders/order.service.ts:599-655 | a request is made by the customer of the order, and changes once, to approved or rejected as reviewed |
| Provenance.CountsMove | apps/api/src/stock-counts/stock-count.service.ts:45-93 | a count is only ever started, and then finalized with the result of the command or abandoned |
| ExactlyOnce.RetriesAreInvisible | apps/api/src/orders/order.service.ts:78-82 | any number of retries put in anywhere after the calls they repeat leaves the final state of the run unchanged |
| ExactlyOnce.RetryIsReplayed | apps/api/src/orders/order.service.ts:78-82 | a retry changes nothing and gets the original reply, unless its own input is refused before the lookup |
| ExactlyOnce.OneEffectPerKey | apps/api/src/orders/order.service.ts:78-82 | of all calls with one actor, type and request identifier at most one ever changes anything |
| ExactlyOnce.TypesAreApart | apps/api/src/orders/order.service.ts:78-82 | no two commands, stages of work or decisions of a review share the name their results are stored under |
| SettlementHistory.UnstoredTwice | apps/api/src/receivables/receivable.service.ts:45-46 | drafting and finalizing store no result; repeated after any run they are refused and change nothing |
| Guarantees.LineCharges | apps/api/src/orders/order.service.ts:467-475 | after any run the supply charged for an order line is shipped x price, and its tax that supply's tax rounded half up, 0 if exempt |
| Ledger.SplitIndependent | docs/architecture/auth-money-operations-design.md:41-43 | lines of equal price and tax that shipped equally much were charged equally much, however their shipments were split |
| Ledger.TaxWithinHalfWon | apps/api/src/orders/order.service.ts:467-475 | a line's total tax is within half a won of the exact tax, and no single shipment is charged a negative tax |
| Taxes.TargetRounds | apps/api/src/orders/order.service.ts:473 | the tax target is the exact tax rounded to the nearest won, a half upwards |
| Guarantees.LineCredits | apps/api/src/returns/return.service.ts:197-204 | after any run the tax credited on a shipment line is its tax's share for the units credited, rounded half up |
| Taxes.ShareBounds | apps/api/src/returns/return.service.ts:200-201 | the credited share of the tax is never negative and never more than the tax |
| Taxes.ShareEnds | docs/architecture/auth-money-operations-design.md:45-47 | no unit returned takes back no tax, a full return takes back all of it |
| Taxes.ShareIsWhole | apps/api/src/returns/return.service.ts:200-201 | the whole tax is taken back exactly when the tax on the units not credited yet rounds to nothing |
| Ledger.ReturnChain | apps/api/src/returns/return.service.ts:68-71 | credited <= inspected = received <= asked back <= shipped, on every shipment line over all its returns and inspections |
| Ledger.DefectChain | apps/api/src/returns/return.service.ts:123-149 | decisions on defects stay within the defects found, resolutions within the quarantined units |
| Guarantees.ReturnLevels | apps/api/src/returns/return.service.ts:161-173 | normal + defective = received on a return line, and all three are the totals of its inspections |
| Ledger.NetOfShipmentLine | docs/architecture/auth-money-operations-design.md:45-47 | a shipment line never nets below zero, and nets to zero exactly after a full credit or when it was free of charge |
| Ledger.TaxFullyReturned | apps/api/src/returns/return.service.ts:198-204 | over any history, the tax of a shipment line is fully taken back exactly when that of the units not credited rounds to nothing |
| LateEntries.TaxComesBackEarly | apps/api/src/returns/return.service.ts:198-204 | a run of correct commands from the empty database in which one of two units takes the whole tax back |
| Ledger.LedgersOfRuns | apps/api/src/receivables/receivable.service.ts:49 | after any run no customer's ledger of shipments, credits and refunded credits is below zero |
| Ledger.LedgerNeverNegative | apps/api/src/returns/return.service.ts:203-204 | the same for every database the invariant admits |
| SettlementHistory.SettlementsAreFixed | apps/api/src/receivables/receivable.service.ts:45-46 | in every continuation of a run a settlement has the same lines for the same entries of its customer and month, and its totals are theirs |
| SettlementHistory.EntriesBilledOnce | apps/api/src/receivables/receivable.service.ts:45 | no ledger entry is on two settlement lines |
| SettlementHistory.BillableExactly | apps/api/src/receivables/receivable.service.ts:45 | while its customer is active, an unbilled entry can still be billed by some later command exactly when the customer has no settlement for its month |
| LateEntries.RefundComesTooLate | apps/api/src/receivables/receivable.service.ts:49 | a run of correct commands from the empty database whose refund is posted into a month already closed, billed by no settlement |
| LateEntries.RefundIsNeverBilled | apps/api/src/receivables/receivable.service.ts:45-49 | and in no continuation of that run it ever is |
| Guarantees.SettlementsFallDue | apps/api/src/receivables/receivable.service.ts:46 | a settlement has a due date exactly once it is finalized: in the month after its own, on the customer's due day as drafted or the last day of a shorter month |
| Calendar.DueInNextMonth | apps/api/src/receivables/receivable.service.ts:46 | the earlier of the two dates the source compares is the due day, or the last day, of the following month |
| BooksInvariant.DraftBillsUnsettled | apps/api/src/receivables/receivable.service.ts:45 | a draft bills exactly the customer's entries of the month that no settlement bills yet |
| BooksInvariant.VoidReverses | apps/api/src/receivables/receivable.service.ts:50 | voiding a payment leaves none of its allocations live and those of other payments as they were |
| Guarantees.PaymentsStayCovered | apps/api/src/receivables/receivable.service.ts:48-50 | live allocations + refunds never exceed a payment; a voided one has neither; no allocation is reversed twice |
| Guarantees.SettlementsNotOverpaid | apps/api/src/receivables/receivable.service.ts:48 | live allocations to a settlement never exceed max(0, the sum of its lines) |
| Guarantees.CreditsNotOverpaid | apps/api/src/receivables/receivable.service.ts:49 | refunds of a return credit never exceed it |
| IntegrityChecks.RunsStayHealthy | scripts/lib/operational-integrity.mjs:46-131 | no run leaves anything for the integrity queries on stock, lines, work, cancellations, ledger, payments, defects, refunds and settlements (due dates included) to report, apart from the two conditions below |
| FalseAlarms.FinalizedCountCovers | scripts/lib/operational-integrity.mjs:102-103 | right after it is finalized a count covers what is reserved |
| FalseAlarms.CoverageLost | scripts/lib/operational-integrity.mjs:102-103 | it goes on doing so exactly unless an order takes more than is left of what it found |
| FalseAlarms.CountFallsBehind | scripts/lib/operational-integrity.mjs:102-103 | a run of correct commands that this query reports |
| FalseAlarms.AssignedKeepWork | scripts/lib/operational-integrity.mjs:77-85 | every command but finalizing a count leaves every assigned order something to ship |
| FalseAlarms.FinalizeLeavesWork | scripts/lib/operational-integrity.mjs:77-85 | finalizing does so exactly when every assigned order has a line that survives the cut |
| FalseAlarms.AssignmentOutlivesWork | scripts/lib/operational-integrity.mjs:77-85 | a run of correct commands that this query reports |
| OrderCommands.Submit | apps/api/src/orders/order.service.ts:116-140 | commits a submitted order with one line per item, priced by its offer, or rejects as the source does |
| OrderCommands.Confirm | apps/api/src/orders/order.service.ts:495-528 | the loop with its two counters commits what the specification says or rejects with its error |
| OrderCommands.Allocate | apps/api/src/orders/order.service.ts:530-574 | the same for allocation |
| OrderCommands.AllocateLine | apps/api/src/orders/order.service.ts:547-568 | one line: balance, reservation, line counter and event are written together or not at all |
| OrderCommands.Claim | apps/api/src/orders/order.service.ts:249-270 | takes an open confirmed order for a worker |
| OrderCommands.ReleaseWork | apps/api/src/orders/order.service.ts:272-289 | gives it back |
| OrderCommands.SetWork | apps/api/src/orders/order.service.ts:299-337 | the loop over the named reservations sets picked or inspected quantities and answers with one row each |
| OrderCommands.Ship | apps/api/src/orders/order.service.ts:426-493 | validates all reservations before it writes, ships them in input order, and drops the assignment when nothing is left |
| OrderCommands.ShipLines | apps/api/src/orders/order.service.ts:455-480 | the shipping loop with its running total |
| OrderCommands.ShipLine | apps/api/src/orders/order.service.ts:456-479 | one line: stock, reservation, work, event, movement and ledger entry with the cumulative tax |
| OrderCommands.ReleaseOrderReservations | apps/api/src/orders/order.service.ts:84-104 | the loop frees every open reservation of the order and counts the units |
| OrderCommands.ResetShipmentWork | apps/api/src/orders/order.service.ts:106-114 | picked and inspected quantities of all lines of the order become 0 |
| OrderCommands.Cancel | apps/api/src/orders/order.service.ts:576-597 | cancels a confirmed order without pending request |
| OrderCommands.RequestCancellation | apps/api/src/orders/order.service.ts:599-622 | opens a request, drops the assignment and the work |
| OrderCommands.Review | apps/api/src/orders/order.service.ts:624-655 | approves, which cancels the order, or rejects |
| StockCountCommands.Start | apps/api/src/stock-counts/stock-count.service.ts:45-59 | opens a count with the balance as its snapshot |
| StockCountCommands.Finalize | apps/api/src/stock-counts/stock-count.service.ts:61-88 | commits the release of the shortage, the corrected stock and the closed count |
| StockCountCommands.GiveUp | apps/api/src/stock-counts/stock-count.service.ts:72-80 | the greedy loop with shortage, released and early exit releases exactly what the specification's walk does |
| StockCountCommands.Cancel | apps/api/src/stock-counts/stock-count.service.ts:90-93 | abandons a running count |
| CatalogCommands.Adjust | apps/api/src/catalog/catalog.service.ts:146 | corrects the stock of a SKU and books the movement |
| CatalogCommands.Receive | apps/api/src/catalog/catalog.service.ts:147 | the loop over the receipt's lines adds stock and movements or aborts the whole receipt |
| ReturnCommands.Request | apps/api/src/returns/return.service.ts:53-82 | records a return with one line per row |
| ReturnCommands.Inspect | apps/api/src/returns/return.service.ts:151-178 | books an inspection, the good units back to stock, and the state of the return |
| ReturnCommands.CreditReturn | apps/api/src/returns/return.service.ts:180-209 | credits an inspection and posts the negative entry, into the next month if the shipment is already on a finalized settlement |
| ReturnCommands.Dispose | apps/api/src/returns/return.service.ts:123-141 | decides on defective units |
| ReturnCommands.Resolve | apps/api/src/returns/return.service.ts:149 | resolves quarantined units |
| ReceivableCommands.AddUp | apps/api/src/receivables/receivable.service.ts:45 | the loop accumulates supply, tax and total of the month's unsettled entries |
| ReceivableCommands.DraftSettlement | apps/api/src/receivables/receivable.service.ts:45 | drafts a settlement with one line per entry |
| ReceivableCommands.FinalizeSettlement | apps/api/src/receivables/receivable.service.ts:46 | finalizes a draft once and fixes its due date |
| ReceivableCommands.Pay | apps/api/src/receivables/receivable.service.ts:47 | records a payment of a known customer; an unknown one violates the foreign key |
| ReceivableCommands.AllocatePayment | apps/api/src/receivables/receivable.service.ts:48 | allocates within what the payment has left and the settlement still needs |
| ReceivableCommands.RecordRefund | apps/api/src/receivables/receivable.service.ts:49 | refunds a payment or a credit within what is left of it |
| ReceivableCommands.VoidPayment | apps/api/src/receivables/receivable.service.ts:50 | voids an unrefunded payment and reverses its allocations |
| Transactions.Server.Handle | apps/api/src/orders/order.service.ts:64-82 | one call: refused input, stored reply, or a transaction whose writes are undone on any rejection; the state moves by one step of the specification and keeps the invariant |
| Csv.ParseCsv | apps/api/src/imports/initial-import-parser.ts:22-45 | the index loop over characters reads exactly what the grammar reads and fails exactly where it fails |
| CsvExport.ReadsWhatIsWritten | apps/api/src/imports/initial-import-parser.ts:22-45 | a table written by rules 5 to 7 of section 2 of RFC 4180, with any optional quotes and CRLF or LF ends, is read back without its blank rows |
| CsvExport.ImportReadsExport | apps/api/src/exports/data-export.service.ts:35-61 | reading an exported file gives the exported cells made safe, minus blank rows, for every mix of quotes, commas, CR and LF, up to the reader's size limit |
| ImportParser.ParseInitialImport | apps/api/src/imports/initial-import-parser.ts:47-98 | the whole parser: header, row limit, both passes and sorted errors |
| ImportParser.CheckRows | apps/api/src/imports/initial-import-parser.ts:58-89 | the first pass with its key and code sets |
| ImportParser.CheckReferences | apps/api/src/imports/initial-import-parser.ts:91-95 | the second pass blames exactly the rows without error whose references are not in the file |
| ImportParser.ParsedFine | apps/api/src/imports/initial-import-parser.ts:58-97 | no error is reported exactly when every row is right in itself, no two keys read alike and, if required, references stay inside the file |
| ImportRows.FileRows | apps/api/src/imports/initial-import-parser.ts:47-82 | of every file of rows of known types, with any quotes, line ends and white space around cells, each field of each row is the cell of its own column: codes in upper case, numbers by their decimal value |
| ImportRows.FileErrors | apps/api/src/imports/initial-import-parser.ts:62-97 | such a file has no errors exactly when the cells of each row are what its type needs, no two rows read alike, and, if required, references stay inside the file |
| ImportFaults.FileFaults | apps/api/src/imports/initial-import-parser.ts:58-97 | each row of such a file is reported exactly for its fault, if it has one: no code, a good row before it that reads alike, what its type lacks, or a reference to no good row; in the order of the rows |
| ImportRows.CleanTrims | apps/api/src/imports/initial-import-parser.ts:18-19 | every text is one cell without white space at its ends, surrounded by white space, and that cell is what the import keeps |
| ImportRows.NumbersAreDecimal | apps/api/src/imports/initial-import-parser.ts:20 | a cell is a number exactly when it spells it in decimal, with or without leading zeros, and a JavaScript number can represent it |
| ImportRows.PairsReadAlike | apps/api/src/imports/initial-import-parser.ts:67-75 | different pairs of codes are taken for duplicates exactly when a colon in them can be taken for the one that joins them |
| ImportRows.FalseDuplicate | apps/api/src/imports/initial-import-parser.ts:67-75 | a file of two prices for different customers and products that is refused as a duplicate |
| ImportParser.ParseAccepts | apps/api/src/imports/initial-import-parser.ts:74-83 | the rows of a file without errors have distinct keys and the fields their types need |
| ImportParser.SortedHasTheSame | apps/api/src/imports/initial-import-parser.ts:96 | sorting keeps the errors |
| ImportParser.SortedInOrder | apps/api/src/imports/initial-import-parser.ts:96 | errors are reported in the order of their rows |
| ImportCommands.AnalyzeFile | apps/api/src/imports/initial-import.service.ts:22-62 | the loops collect known keys, decisions and conflicts as the specification says |
| ImportCommands.Importer.InsertRows | apps/api/src/imports/initial-import.service.ts:93-111 | the two insertion passes build exactly the specified data, or report the row the database would refuse |
| ImportCommands.Importer.ImportParsed | apps/api/src/imports/initial-import.service.ts:80-122 | duplicate file, analysis, insertion and batch in one transaction; a refused file changes nothing |
| ImportCommands.Importer.Import | apps/api/src/imports/initial-import.service.ts:74-122 | parser and transaction together |
| ImportProofs.ImportSucceeds | apps/api/src/imports/initial-import.service.ts:93-111 | a file the analysis accepts is imported exactly when the columns can hold its new rows (no U+0000 in a text, no quantity above 2147483647); no insertion ever meets a duplicate or a missing reference |
| ImportEffects.AnalyzeExact | apps/api/src/imports/initial-import.service.ts:22-61 | a file is analysed without error exactly when each row is new or there already as it stands, and what prices and stocks are for exists or comes with it; exactly the rows that are not there are marked created |
| ImportEffects.ImportLeaves | apps/api/src/imports/initial-import.service.ts:93-111 | after an import every row is there as it stands in the file; the rest of the catalog, the other balances and the other tables are as before |
| ImportProofs.ViolatesExactly | apps/api/src/imports/initial-import.service.ts:93-122 | of the refusals modelled, the database makes one exactly when the analysis accepts the file and would create a row its columns cannot hold |
| ImportProofs.FilesViolateExactly | apps/api/src/imports/initial-import.service.ts:74-122 | the same for every file as it arrives, through the parser |
| ImportCases.TooManyIsRefused | apps/api/src/imports/initial-import-parser.ts:20 | a file with stock of 3000000000 passes the parser and the analysis and is refused by the database |
| ImportProofs.ImportIsIdempotent | apps/api/src/imports/initial-import.service.ts:22-62 | after an import, analysing the same rows reports no error and marks every row skipped |
| ImportProofs.ImportTwice | apps/api/src/imports/initial-import.service.ts:74-122 | the same file again is answered as a duplicate, another file with the same rows creates nothing |
| ImportProofs.ImportKeepsLedger | apps/api/src/imports/initial-import.service.ts:103-108 | stock an import brings is booked: each SKU still has on hand what its movements add up to |
| ImportProofs.ImportKeepsFreezeUnless | apps/api/src/imports/initial-import.service.ts:103-107 | an import ends the freeze of a running count exactly when it stocks a SKU under count, and breaks nothing else that holds of counts |
| ImportCases.StockArrivesDuringCount | apps/api/src/imports/initial-import.service.ts:103-107 | a run from the empty site, with the files as text, whose last import does so |
| ImportProofs.ImportKeepsStock | apps/api/src/imports/initial-import.service.ts:103-108 | an import keeps the stock invariant, and the freeze under the same condition |
| SiteRuns.ImportKeepsInv | apps/api/src/imports/initial-import.service.ts:93-111 | an import keeps the whole invariant |
| SkuRoots.ApplyWithin | apps/api/src/catalog/catalog.service.ts:146-147 | no command brings a SKU into the tables that neither an order nor a receipt named |
| SiteRuns.SiteAlwaysOk | apps/api/src/imports/initial-import.service.ts:74-122 | however commands, imports and changes of master data interleave, the invariant of the database and that of the catalog hold, and every SKU in the tables is a warehouse and a product of the catalog |
| SiteRuns.EnterKeepsSite | apps/api/src/catalog/catalog.service.ts:14-26 | entering, renaming or deactivating a party or product by hand keeps every identifier and all that holds of the site |
| SiteRuns.SetPriceKeepsSite | apps/api/src/catalog/catalog.service.ts:23-26 | so does setting or deactivating a price |
| SiteRuns.BooksAgree | apps/api/src/imports/initial-import.service.ts:103-108 | over all those runs stock on hand is the sum of its movements, reserved is what lines hold, and 0 <= reserved <= on hand |
| SiteRuns.AdvanceKeepsFreezeUnless | apps/api/src/imports/initial-import.service.ts:103-107 | a step ends the freeze of a running count exactly when it imports stock for a SKU under count |
| SiteRuns.FreezeHoldsUntil | apps/api/src/imports/initial-import.service.ts:103-107 | as long as no import did so, every running count finds the balance it started from |
| SiteRuns.UploadsViolateExactly | apps/api/src/imports/initial-import.service.ts:74-122 | after any such run the database refuses a file only for a new row its columns cannot hold, and then always |
| SiteRuns.SiteStaysHealthy | scripts/lib/operational-integrity.mjs:46-131 | after any such run the integrity queries have nothing to report, apart from the two conditions named above |
| SiteRuns.SiteNeverDefensive | apps/api/src/stock-counts/stock-count.service.ts:71-80 | on such a site, also after an import broke a freeze, no command meets a defensive rejection |
| ImportProofs.BatchAddsUp | scripts/lib/operational-integrity.mjs:132-141 | every row of an imported file is counted once, as created or skipped |

## Left out

- Read-only queries, lists, dashboards, filters and pagination; controllers, identity, sessions and attachments.
- Delivery scheduling, notifications, mail and the audit and event tables other than reservation events.
- Reasons, notes, references (other than the refund reference, which is unique) and the format checks on identifiers.
- The adjustment rows a count finalization writes beside the reservation events; they repeat them.
- The rows that record who cancelled an order and why; the cancellation itself is modelled.
- The rejection for an order line without a price: it concerns rows written before prices were required.
- Integer widths of the commands: their quantities and amounts are unbounded, so that where a row above says of a
  command that it succeeds exactly when something holds, a value beyond its database column is one more refusal. The
  width is modelled for the stock an import brings, for the result of a count, and for what the import's parser
  accepts. JavaScript's loss of precision beyond 2^53 is not modelled.
- Row locks, isolation levels and deadlocks: a command is one step that commits or leaves no trace.
- The order in which loops visit reservations: the source sorts by identifier to lock rows in a fixed order, the
  model goes by position in the table. Results do not depend on it; only which of several rejections is reported and
  the order of rows in a reply do. The newest-first walk of a count is modelled in its own order; its last tie-break,
  by reservation identifier, never decides, since an order has one line of a SKU.
- Update in place of single columns: the tables are kept in one field of the `Database` object and written one row
  per statement.
- XLSX output of the exports and the loading of their data.
- Lone surrogates: texts are sequences of Unicode scalar values.
- ImportEffects.AnalyzeExact: looks up existing prices and stocks by their two codes. The source looks them up by the
  codes joined by a colon, which is the same unless codes have colons of their own; which of two that then read alike
  it finds depends on the order of an unordered query. The same goes for the statements of ImportProofs and SiteRuns
  about what the analysis accepts.
- Collisions of file hashes: import batches are found by content.
- ImportProofs.ViolatesExactly: of what the database can refuse, it models UNIQUE keys, references, U+0000 and integer
  widths. Left out are the CHECK that a code is the database's own upper case of itself, which the platform's
  conversion provides as far as the two agree, and the size limit of an index entry on very long codes. The same goes
  for ImportProofs.ImportSucceeds, ImportProofs.FilesViolateExactly and SiteRuns.UploadsViolateExactly.
- The name of an import file.
- The deployment scripts around the integrity queries, and the query on deliveries.
