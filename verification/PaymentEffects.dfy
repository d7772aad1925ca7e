/** What the settlement and payment commands answer and write, row by row of the tables. */
module PaymentEffects {
  import opened Wrappers
  import opened Tables
  import opened Sums
  import opened Totals
  import opened SalesInvariant
  import opened BooksInvariant
  import opened ReceivableService
  import Calendar

  // ---------- settlements ----------

  /** The customer's ledger has the entry in the month, and no settlement has a line for it. */
  ghost predicate ToBill(d: Db, customer: Id, month: int, e: Id) {
    && e < |d.entries| && d.entries[e].customer == customer && d.entries[e].date.month == month
    && forall n: Id | n < |d.settlementLines| :: d.settlementLines[n].entry != e
  }

  /** Whatever the settlement, these weights pick its lines' own amounts. */
  lemma OwnTotals(lines: seq<SettlementLine>, j: Id)
    requires forall m | 0 <= m < |lines| :: lines[m].settlement == j
    ensures Sum(lines, SupplyIn(j)) == Sum(lines, (l: SettlementLine) => l.supply)
    ensures Sum(lines, TaxIn(j)) == Sum(lines, (l: SettlementLine) => l.tax)
    ensures Sum(lines, AmountIn(j)) == Sum(lines, (l: SettlementLine) => l.amount)
  {
    SumEqual(lines, SupplyIn(j), lines, (l: SettlementLine) => l.supply);
    SumEqual(lines, TaxIn(j), lines, (l: SettlementLine) => l.tax);
    SumEqual(lines, AmountIn(j), lines, (l: SettlementLine) => l.amount);
  }

  lemma ToBillIsUnsettled(d: Db, customer: Id, month: int, e: Id)
    requires e < |d.entries|
    ensures ToBill(d, customer, month, e) <==> Unsettled(d, customer, month, e)
  {
  }

  /** A month is drafted exactly once, for an active customer, and only if the ledger has something to bill in it. */
  lemma DraftSucceeds(d: Db, customer: Id, month: int, dueDay: Option<DueDay>)
    ensures DraftSettlement(d, customer, month, dueDay).Done? <==>
              && dueDay.Some? && (exists e: Id :: ToBill(d, customer, month, e))
              && forall j: Id | j < |d.settlements| ::
                   d.settlements[j].customer != customer || d.settlements[j].month != month
  {
    DraftLinesAre(d, customer, month, |d.entries|);
    var lines := DraftLines(d, customer, month, |d.entries|);
    if lines != [] {
      assert DraftedOk(d, customer, month, |d.entries|, lines[0]);
      ToBillIsUnsettled(d, customer, month, lines[0].entry);
      assert ToBill(d, customer, month, lines[0].entry);
    }
    if e: Id :| ToBill(d, customer, month, e) {
      ToBillIsUnsettled(d, customer, month, e);
      assert LineFor(d, |d.settlements|, e) in lines;
    }
  }

  /** The draft has one line per entry to bill, repeating its amounts, and its header adds them up. */
  lemma DraftExact(d: Db, customer: Id, month: int, dueDay: Option<DueDay>)
    requires DraftSettlement(d, customer, month, dueDay).Done?
    ensures dueDay.Some?
    ensures var out, j := DraftSettlement(d, customer, month, dueDay), |d.settlements|;
            && |out.db.settlementLines| >= |d.settlementLines|
            && var lines := out.db.settlementLines[|d.settlementLines|..];
               var supply := Sum(lines, (l: SettlementLine) => l.supply);
               var tax := Sum(lines, (l: SettlementLine) => l.tax);
               var total := Sum(lines, (l: SettlementLine) => l.amount);
               && out.db == d.(settlements :=
                                 d.settlements + [Settlement(customer, month, Draft, supply, tax, total, dueDay.value,
                                                             None)],
                               settlementLines := d.settlementLines + lines)
               && (forall m: Id | m < |lines| ::
                     && ToBill(d, customer, month, lines[m].entry)
                     && var x := d.entries[lines[m].entry];
                        lines[m] == SettlementLine(j, lines[m].entry, x.supply, x.tax, x.amount))
               && (forall m: Id, n: Id | m < n < |lines| :: lines[m].entry != lines[n].entry)
               && (forall e: Id | ToBill(d, customer, month, e) :: exists m: Id :: m < |lines| && lines[m].entry == e)
               && out.reply == SettlementDrafted(j, supply, tax, total, |lines|)
  {
    var lines := DraftLines(d, customer, month, |d.entries|);
    var d' := DraftSettlement(d, customer, month, dueDay).db;
    assert d'.settlementLines == d.settlementLines + lines;
    assert d'.settlementLines[|d.settlementLines|..] == lines;
    DraftedLines(d, customer, month, lines);
    OwnTotals(lines, |d.settlements|);
  }

  lemma DraftedLines(d: Db, customer: Id, month: int, lines: seq<SettlementLine>)
    requires lines == DraftLines(d, customer, month, |d.entries|)
    ensures forall m: Id | m < |lines| ::
              && ToBill(d, customer, month, lines[m].entry)
              && var x := d.entries[lines[m].entry];
                 lines[m] == SettlementLine(|d.settlements|, lines[m].entry, x.supply, x.tax, x.amount)
    ensures forall m: Id, n: Id | m < n < |lines| :: lines[m].entry != lines[n].entry
    ensures forall e: Id | ToBill(d, customer, month, e) :: exists m: Id :: m < |lines| && lines[m].entry == e
  {
    DraftLinesAre(d, customer, month, |d.entries|);
    forall m: Id | m < |lines|
      ensures ToBill(d, customer, month, lines[m].entry)
      ensures lines[m] == LineFor(d, |d.settlements|, lines[m].entry)
    {
      assert DraftedOk(d, customer, month, |d.entries|, lines[m]);
      ToBillIsUnsettled(d, customer, month, lines[m].entry);
    }
    forall e: Id | ToBill(d, customer, month, e) ensures exists m: Id :: m < |lines| && lines[m].entry == e {
      ToBillIsUnsettled(d, customer, month, e);
      var m: Id :| m < |lines| && lines[m] == LineFor(d, |d.settlements|, e);
    }
  }

  /** A draft is finalized once; it falls due in the month after its own, on its due day or that month's last day. */
  lemma FinalizeExact(d: Db, j: Id)
    ensures var out := FinalizeSettlement(d, j);
            && (out.Done? <==> j < |d.settlements| && d.settlements[j].status == Draft)
            && (out.Done? ==>
                  var next := d.settlements[j].month + 1;
                  var due := Date(next, Min(d.settlements[j].dueDay, Calendar.DaysIn(next)));
                  && out.db == d.(settlements := d.settlements[j := d.settlements[j].(status := Finalized,
                                                                                      due := Some(due))])
                  && out.reply == SettlementFinalized(j, due))
  {
    if j < |d.settlements| {
      Calendar.DueInNextMonth(d.settlements[j].month, d.settlements[j].dueDay);
    }
  }

  // ---------- payments ----------

  /** A payment of a known customer is recorded with the amount that was paid. */
  lemma PayExact(d: Db, customer: Id, customerKnown: bool, amount: int)
    ensures var out := Pay(d, customer, customerKnown, amount);
            && (out.Done? <==> amount >= 1 && customerKnown)
            && (out.Done? ==>
                  && out.db == d.(payments := d.payments + [Payment(customer, amount, Recorded)])
                  && out.reply == PaymentRecorded(|d.payments|, amount))
  {
  }

  /** A payment pays a finalized settlement of its own customer once, with no more than it has left and no more than the
      settlement still asks for. */
  lemma AllocateExact(d: Db, p: Id, j: Id, amount: int)
    ensures var out := AllocatePayment(d, p, j, amount);
            && (out.Done? <==>
                  && amount >= 1
                  && p < |d.payments| && d.payments[p].status == Recorded
                  && j < |d.settlements| && d.settlements[j].status == Finalized
                  && d.payments[p].customer == d.settlements[j].customer
                  && Sum(d.allocations, LiveFrom(p)) + Sum(d.refunds, RefundedFrom(FromPayment(p))) + amount
                       <= d.payments[p].amount
                  && Sum(d.allocations, LiveTo(j)) + amount <= Sum(d.settlementLines, AmountIn(j))
                  && forall a: Id | a < |d.allocations| ::
                       d.allocations[a].payment != p || d.allocations[a].settlement != j)
            && (out.Done? ==>
                  && out.db == d.(allocations := d.allocations + [Allocation(p, j, amount, 0)])
                  && out.reply == PaymentAllocated(|d.allocations|, amount))
  {
  }

  /** A payment is voided once, and only while nothing of it was refunded; each of its allocations is reversed, and the
      others are as before. */
  lemma VoidExact(d: Db, p: Id)
    requires BooksInv(d)
    ensures var out := VoidPayment(d, p);
            && (out.Done? <==>
                  && p < |d.payments| && d.payments[p].status == Recorded
                  && forall r: Id | r < |d.refunds| :: d.refunds[r].source != FromPayment(p))
            && (out.Done? ==>
                  && out.db == d.(payments := d.payments[p := d.payments[p].(status := Voided)],
                                  allocations := out.db.allocations)
                  && |out.db.allocations| == |d.allocations|
                  && (forall a: Id | a < |d.allocations| && d.allocations[a].payment == p ::
                        d.allocations[a].reversals == 0 && out.db.allocations[a] == d.allocations[a].(reversals := 1))
                  && (forall a: Id | a < |d.allocations| && d.allocations[a].payment != p ::
                        out.db.allocations[a] == d.allocations[a])
                  && out.reply ==
                       PaymentVoided(p, Sum(d.allocations, (a: Allocation) => if a.payment == p then 1 else 0)))
  {
    forall a: Id | a < |d.allocations| ensures AllocationOk(d.payments, d.settlements, d.allocations[a]) {
    }
    SumEqual(d.allocations, CountOf(p), d.allocations, (a: Allocation) => if a.payment == p then 1 else 0);
  }

  // ---------- refunds ----------

  /** A refund of a payment is recorded exactly when its reference is new and the payment has that much left. */
  lemma RefundOfPayment(d: Db, p: Id, amount: int, date: Date, reference: string)
    ensures var out := RecordRefund(d, FromPayment(p), amount, date, reference);
            && (out.Done? <==>
                  && amount >= 1 && (forall r: Id | r < |d.refunds| :: d.refunds[r].reference != reference)
                  && p < |d.payments| && d.payments[p].status == Recorded
                  && Sum(d.allocations, LiveFrom(p)) + Sum(d.refunds, RefundedFrom(FromPayment(p))) + amount
                       <= d.payments[p].amount)
            && (out.Done? ==>
                  && out.db == d.(refunds := d.refunds + [Refund(FromPayment(p), amount, reference)])
                  && out.reply == RefundRecorded(|d.refunds|, amount))
  {
  }

  /** A refund of a credit is recorded exactly when its reference is new and the credit has that much left. It is posted
      to the ledger of the customer the units were shipped to, on its own date, or on the first of the next month if the
      customer's month is finalized. */
  lemma RefundOfCredit(d: Db, n: Id, amount: int, date: Date, reference: string)
    requires SalesInv(d)
    ensures var out := RecordRefund(d, FromCredit(n), amount, date, reference);
            && (out.Done? <==>
                  && amount >= 1 && (forall r: Id | r < |d.refunds| :: d.refunds[r].reference != reference)
                  && n < |d.inspections| && d.inspections[n].credit.Some?
                  && Sum(d.refunds, RefundedFrom(FromCredit(n))) + amount <= d.inspections[n].credit.value.amount)
            && (out.Done? ==>
                  var s := d.inspections[n].shipmentLine;
                  && s < |d.shipmentLines| && SentOk(d, s)
                  && var customer := CustomerOf(d, s);
                     var posted := if exists j: Id ::
                                        && j < |d.settlements| && d.settlements[j].customer == customer
                                        && d.settlements[j].month == date.month
                                        && d.settlements[j].status == Finalized
                                   then Date(date.month + 1, 1) else date;
                     && out.db == d.(refunds := d.refunds + [Refund(FromCredit(n), amount, reference)],
                                     entries := d.entries + [Entry(customer, OfRefund(|d.refunds|), posted, 1, amount,
                                                                   amount, 0, amount)])
                     && out.reply == RefundRecorded(|d.refunds|, amount))
  {
    if n < |d.inspections| {
      assert InspectionOk(d, n) && ReturnLineOk(d, d.inspections[n].returnLine);
    }
  }
}
