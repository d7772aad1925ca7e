/** Settlements, payments and refunds as the service runs them. */
module ReceivableCommands {
  import opened Wrappers
  import opened Tables
  import opened Sums
  import opened Totals
  import Calendar
  import opened Store
  import opened ReceivableService
  import BooksInvariant

  /** Add up what a settlement's lines bill. */
  method AddUp(lines: seq<SettlementLine>, j: Id) returns (supply: int, tax: int, total: int)
    requires forall n | 0 <= n < |lines| :: lines[n].settlement == j
    ensures supply == Sum(lines, SupplyIn(j)) && tax == Sum(lines, TaxIn(j)) && total == Sum(lines, AmountIn(j))
  {
    supply, tax, total := 0, 0, 0;
    for n := 0 to |lines|
      invariant supply == Sum(lines[..n], SupplyIn(j)) && tax == Sum(lines[..n], TaxIn(j))
          && total == Sum(lines[..n], AmountIn(j))
    {
      assert lines[..n + 1] == lines[..n] + [lines[n]];
      SumAppend(lines[..n], lines[n], SupplyIn(j));
      SumAppend(lines[..n], lines[n], TaxIn(j));
      SumAppend(lines[..n], lines[n], AmountIn(j));
      supply, tax, total := supply + lines[n].supply, tax + lines[n].tax, total + lines[n].amount;
    }
    assert lines[..|lines|] == lines;
  }

  method InsertLines(db: Database, lines: seq<SettlementLine>)
    modifies db
    ensures db.tables == old(db.tables).(settlementLines := old(db.tables).settlementLines + lines)
  {
    for n := 0 to |lines|
      invariant db.tables == old(db.tables).(settlementLines := old(db.tables).settlementLines + lines[..n])
    {
      db.InsertSettlementLine(lines[n]);
    }
    assert lines[..|lines|] == lines;
  }

  method DraftSettlement(db: Database, customer: Id, month: int, dueDay: Option<DueDay>)
    returns (answer: Result<Reply, Error>)
    modifies db
    ensures Performs(ReceivableService.DraftSettlement(old(db.tables), customer, month, dueDay), db.tables, answer)
  {
    if exists j | 0 <= j < |db.tables.settlements| ::
         db.tables.settlements[j].customer == customer && db.tables.settlements[j].month == month {
      return Failure(SettlementExists);
    }
    if dueDay.None? { return Failure(CustomerInactive); }
    var j, lines := |db.tables.settlements|, DraftLines(db.tables, customer, month, |db.tables.entries|);
    if lines == [] { return Failure(NothingToSettle); }
    forall n | 0 <= n < |lines| ensures lines[n].settlement == j {
      BooksInvariant.DraftLinesAre(db.tables, customer, month, |db.tables.entries|);
      assert BooksInvariant.DraftedOk(db.tables, customer, month, |db.tables.entries|, lines[n]);
    }
    var supply, tax, total := AddUp(lines, j);
    db.InsertSettlement(Settlement(customer, month, Draft, supply, tax, total, dueDay.value, None));
    InsertLines(db, lines);
    return Success(SettlementDrafted(j, supply, tax, total, |lines|));
  }

  method FinalizeSettlement(db: Database, j: Id) returns (answer: Result<Reply, Error>)
    modifies db
    ensures Performs(ReceivableService.FinalizeSettlement(old(db.tables), j), db.tables, answer)
  {
    if j >= |db.tables.settlements| { return Failure(NotFound); }
    if db.tables.settlements[j].status != Draft { return Failure(AlreadyFinalized); }
    var due := Calendar.DueDate(db.tables.settlements[j].month, db.tables.settlements[j].dueDay);
    db.UpdateSettlement(j, db.tables.settlements[j].(status := Finalized, due := Some(due)));
    return Success(SettlementFinalized(j, due));
  }

  method Pay(db: Database, customer: Id, customerKnown: bool, amount: int) returns (answer: Result<Reply, Error>)
    modifies db
    ensures Performs(ReceivableService.Pay(old(db.tables), customer, customerKnown, amount), db.tables, answer)
  {
    if amount < 1 { return Failure(BadRequest); }
    if !customerKnown { return Failure(ConstraintViolation); }
    var p := |db.tables.payments|;
    db.InsertPayment(Payment(customer, amount, Recorded));
    return Success(PaymentRecorded(p, amount));
  }

  method AllocatePayment(db: Database, p: Id, j: Id, amount: int) returns (answer: Result<Reply, Error>)
    modifies db
    ensures Performs(ReceivableService.AllocatePayment(old(db.tables), p, j, amount), db.tables, answer)
  {
    if amount < 1 { return Failure(BadRequest); }
    if p >= |db.tables.payments| || db.tables.payments[p].status != Recorded { return Failure(NotFound); }
    if j >= |db.tables.settlements| || db.tables.settlements[j].status != Finalized { return Failure(NotFound); }
    if db.tables.payments[p].customer != db.tables.settlements[j].customer { return Failure(CustomersDiffer); }
    var used, refunded := Sum(db.tables.allocations, LiveFrom(p)), Sum(db.tables.refunds, RefundedFrom(FromPayment(p)));
    var due, settled := Sum(db.tables.settlementLines, AmountIn(j)), Sum(db.tables.allocations, LiveTo(j));
    if amount > db.tables.payments[p].amount - used - refunded || amount > due - settled {
      return Failure(AllocationExceedsBalance);
    }
    if exists a | 0 <= a < |db.tables.allocations| ::
         db.tables.allocations[a].payment == p && db.tables.allocations[a].settlement == j {
      return Failure(ConstraintViolation);
    }
    var a := |db.tables.allocations|;
    db.InsertAllocation(Allocation(p, j, amount, 0));
    return Success(PaymentAllocated(a, amount));
  }

  method RecordRefund(db: Database, source: RefundSource, amount: int, date: Date, reference: string)
    returns (answer: Result<Reply, Error>)
    modifies db
    ensures Performs(ReceivableService.RecordRefund(old(db.tables), source, amount, date, reference), db.tables, answer)
  {
    if amount < 1 { return Failure(BadRequest); }
    if exists r | 0 <= r < |db.tables.refunds| :: db.tables.refunds[r].reference == reference {
      return Failure(ReferenceUsed);
    }
    var available, customer := 0, 0;
    match source {
      case FromPayment(p) =>
        if p >= |db.tables.payments| || db.tables.payments[p].status != Recorded { return Failure(NotFound); }
        var used, refunded := Sum(db.tables.allocations, LiveFrom(p)), Sum(db.tables.refunds, RefundedFrom(source));
        available, customer := db.tables.payments[p].amount - used - refunded, db.tables.payments[p].customer;
      case FromCredit(n) =>
        if !HasCredit(db.tables, n) { return Failure(NotFound); }
        var inspection := db.tables.inspections[n];
        available := inspection.credit.value.amount - Sum(db.tables.refunds, RefundedFrom(source));
        customer := db.tables.returnRequests[db.tables.returnLines[inspection.returnLine].parent].customer;
    }
    if amount > available { return Failure(RefundExceedsSource); }
    var r := |db.tables.refunds|;
    db.InsertRefund(Refund(source, amount, reference));
    if source.FromCredit? {
      var posted := if MonthClosed(db.tables, customer, date.month) then Date(date.month + 1, 1) else date;
      db.InsertEntry(Entry(customer, OfRefund(r), posted, 1, amount, amount, 0, amount));
    }
    return Success(RefundRecorded(r, amount));
  }

  /** Reverse the payment's allocations one by one; a second reversal of the same allocation violates a UNIQUE
      constraint and aborts. */
  method ReverseAllocations(db: Database, p: Id) returns (reversed: Option<int>)
    modifies db
    ensures reversed.None? <==>
              exists a | 0 <= a < |old(db.tables).allocations| ::
                old(db.tables).allocations[a].payment == p && old(db.tables).allocations[a].reversals > 0
    ensures reversed.Some? ==>
              && reversed.value == Sum(old(db.tables).allocations, CountOf(p))
              && db.tables == old(db.tables).(allocations := ReverseAll(old(db.tables).allocations, p))
  {
    ghost var before := db.tables.allocations;
    var count := 0;
    for a := 0 to |db.tables.allocations|
      invariant |db.tables.allocations| == |before|
          && db.tables == old(db.tables).(allocations := db.tables.allocations)
      invariant forall b | 0 <= b < |before| ::
          db.tables.allocations[b] == (if b < a then ReverseAll(before, p)[b] else before[b])
      invariant forall b | 0 <= b < a :: before[b].payment == p ==> before[b].reversals == 0
      invariant count == Sum(before[..a], CountOf(p))
    {
      assert before[..a + 1] == before[..a] + [before[a]];
      SumAppend(before[..a], before[a], CountOf(p));
      var allocation := db.tables.allocations[a];
      if allocation.payment == p {
        if allocation.reversals > 0 { return None; }
        db.UpdateAllocation(a, allocation.(reversals := 1));
        count := count + 1;
      }
    }
    assert before[..|before|] == before;
    return Some(count);
  }

  method VoidPayment(db: Database, p: Id) returns (answer: Result<Reply, Error>)
    modifies db
    ensures Performs(ReceivableService.VoidPayment(old(db.tables), p), db.tables, answer)
  {
    if p >= |db.tables.payments| || db.tables.payments[p].status != Recorded { return Failure(PaymentUnavailable); }
    if exists r | 0 <= r < |db.tables.refunds| :: db.tables.refunds[r].source == FromPayment(p) {
      return Failure(PaymentRefunded);
    }
    var reversed := ReverseAllocations(db, p);
    if reversed.None? { return Failure(ConstraintViolation); }
    db.UpdatePayment(p, db.tables.payments[p].(status := Voided));
    return Success(PaymentVoided(p, reversed.value));
  }
}
