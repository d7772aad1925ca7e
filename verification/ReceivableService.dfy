/** Monthly settlements, payments, their allocation, refunds and voided payments. */
module ReceivableService {
  import opened Wrappers
  import opened Tables
  import opened Sums
  import opened Totals
  import Calendar

  // ---------- settlements ----------

  predicate OnSettlement(settlementLines: seq<SettlementLine>, e: Id) {
    exists n | 0 <= n < |settlementLines| :: settlementLines[n].entry == e
  }

  predicate Unsettled(d: Db, customer: Id, month: int, e: Id)
    requires e < |d.entries|
  {
    && d.entries[e].customer == customer
    && d.entries[e].date.month == month
    && !OnSettlement(d.settlementLines, e)
  }

  function LineFor(d: Db, settlement: Id, e: Id): SettlementLine
    requires e < |d.entries|
  {
    SettlementLine(settlement, e, d.entries[e].supply, d.entries[e].tax, d.entries[e].amount)
  }

  /** Settlement lines for the customer's unsettled entries of the month among the first `n` entries. */
  function DraftLines(d: Db, customer: Id, month: int, n: nat): seq<SettlementLine>
    requires n <= |d.entries|
  {
    if n == 0 then []
    else if Unsettled(d, customer, month, n - 1) then
      DraftLines(d, customer, month, n - 1) + [LineFor(d, |d.settlements|, n - 1)]
    else DraftLines(d, customer, month, n - 1)
  }

  /** `dueDay` is the due day of the customer, if it is active. */
  function DraftSettlement(d: Db, customer: Id, month: int, dueDay: Option<DueDay>): Outcome {
    if exists j | 0 <= j < |d.settlements| ::
        d.settlements[j].customer == customer && d.settlements[j].month == month then
      Failed(SettlementExists)
    else if dueDay.None? then Failed(CustomerInactive)
    else
      var lines := DraftLines(d, customer, month, |d.entries|);
      if lines == [] then Failed(NothingToSettle)
      else
        var j := |d.settlements|;
        var supply, tax, total := Sum(lines, SupplyIn(j)), Sum(lines, TaxIn(j)), Sum(lines, AmountIn(j));
        var header := Settlement(customer, month, Draft, supply, tax, total, dueDay.value, None);
        Done(d.(settlements := d.settlements + [header],
                settlementLines := d.settlementLines + lines),
             SettlementDrafted(j, supply, tax, total, |lines|))
  }

  function FinalizeSettlement(d: Db, j: Id): Outcome {
    if j >= |d.settlements| then Failed(NotFound)
    else if d.settlements[j].status != Draft then Failed(AlreadyFinalized)
    else
      var due := Calendar.DueDate(d.settlements[j].month, d.settlements[j].dueDay);
      Done(d.(settlements := d.settlements[j := d.settlements[j].(status := Finalized, due := Some(due))]),
           SettlementFinalized(j, due))
  }

  // ---------- payments ----------

  /** The customer of a payment is a foreign key. */
  function Pay(d: Db, customer: Id, customerKnown: bool, amount: int): Outcome {
    if amount < 1 then Failed(BadRequest)
    else if !customerKnown then Failed(ConstraintViolation)
    else Done(d.(payments := d.payments + [Payment(customer, amount, Recorded)]), PaymentRecorded(|d.payments|, amount))
  }

  /** What a payment has left after its live allocations and refunds. */
  function Unused(d: Db, p: Id): int
    requires p < |d.payments|
  {
    d.payments[p].amount - Sum(d.allocations, LiveFrom(p)) - Sum(d.refunds, RefundedFrom(FromPayment(p)))
  }

  /** A second allocation of the same payment to the same settlement violates a UNIQUE constraint. */
  function AllocatePayment(d: Db, p: Id, j: Id, amount: int): Outcome {
    if amount < 1 then Failed(BadRequest)
    else if p >= |d.payments| || d.payments[p].status != Recorded then Failed(NotFound)
    else if j >= |d.settlements| || d.settlements[j].status != Finalized then Failed(NotFound)
    else if d.payments[p].customer != d.settlements[j].customer then Failed(CustomersDiffer)
    else if amount > Unused(d, p) || amount > Sum(d.settlementLines, AmountIn(j)) - Sum(d.allocations, LiveTo(j)) then
      Failed(AllocationExceedsBalance)
    else if exists a | 0 <= a < |d.allocations| ::
        d.allocations[a].payment == p && d.allocations[a].settlement == j then
      Failed(ConstraintViolation)
    else
      Done(d.(allocations := d.allocations + [Allocation(p, j, amount, 0)]), PaymentAllocated(|d.allocations|, amount))
  }

  /** Reverse every allocation of a payment, whether or not it was reversed before. */
  function ReverseAll(allocations: seq<Allocation>, p: Id): (reversed: seq<Allocation>)
    ensures |reversed| == |allocations|
  {
    seq(|allocations|, a requires 0 <= a < |allocations| =>
      if allocations[a].payment == p then
        allocations[a].(reversals := allocations[a].reversals + 1)
      else allocations[a])
  }

  function CountOf(p: Id): Allocation -> int {
    (a: Allocation) => if a.payment == p then 1 else 0
  }

  function VoidPayment(d: Db, p: Id): Outcome {
    if p >= |d.payments| || d.payments[p].status != Recorded then Failed(PaymentUnavailable)
    else if exists r | 0 <= r < |d.refunds| :: d.refunds[r].source == FromPayment(p) then Failed(PaymentRefunded)
    else if exists a | 0 <= a < |d.allocations| :: d.allocations[a].payment == p && d.allocations[a].reversals > 0 then
      Failed(ConstraintViolation)
    else
      Done(d.(allocations := ReverseAll(d.allocations, p),
              payments := d.payments[p := d.payments[p].(status := Voided)]),
           PaymentVoided(p, Sum(d.allocations, CountOf(p))))
  }

  // ---------- refunds ----------

  /** The customer's settlement of the month is closed. */
  predicate MonthClosed(d: Db, customer: Id, month: int) {
    exists j | 0 <= j < |d.settlements| ::
      d.settlements[j].customer == customer && d.settlements[j].month == month && d.settlements[j].status == Finalized
  }

  function RefundPayment(d: Db, p: Id, amount: int, reference: string): Outcome {
    if p >= |d.payments| || d.payments[p].status != Recorded then Failed(NotFound)
    else if amount > Unused(d, p) then Failed(RefundExceedsSource)
    else
      Done(d.(refunds := d.refunds + [Refund(FromPayment(p), amount, reference)]), RefundRecorded(|d.refunds|, amount))
  }

  /** The customer a credit was granted to. */
  predicate HasCredit(d: Db, n: Id) {
    && n < |d.inspections| && d.inspections[n].credit.Some?
    && d.inspections[n].returnLine < |d.returnLines|
    && d.returnLines[d.inspections[n].returnLine].parent < |d.returnRequests|
  }

  /** Paying a credit out takes it off the customer's ledger again, in the first month still open. */
  function RefundCredit(d: Db, n: Id, amount: int, date: Date, reference: string): Outcome {
    if !HasCredit(d, n) then Failed(NotFound)
    else if amount > d.inspections[n].credit.value.amount - Sum(d.refunds, RefundedFrom(FromCredit(n))) then
      Failed(RefundExceedsSource)
    else
      var customer := d.returnRequests[d.returnLines[d.inspections[n].returnLine].parent].customer;
      var posted := if MonthClosed(d, customer, date.month) then Date(date.month + 1, 1) else date;
      Done(d.(refunds := d.refunds + [Refund(FromCredit(n), amount, reference)],
              entries := d.entries + [Entry(customer, OfRefund(|d.refunds|), posted, 1, amount, amount, 0, amount)]),
           RefundRecorded(|d.refunds|, amount))
  }

  function RecordRefund(d: Db, source: RefundSource, amount: int, date: Date, reference: string): Outcome {
    if amount < 1 then Failed(BadRequest)
    else if exists r | 0 <= r < |d.refunds| :: d.refunds[r].reference == reference then Failed(ReferenceUsed)
    else
      match source
      case FromPayment(p) => RefundPayment(d, p, amount, reference)
      case FromCredit(n) => RefundCredit(d, n, amount, date, reference)
  }
}
