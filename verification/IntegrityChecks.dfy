/** The repository's own integrity queries, stated independently of the invariant and proved of every reachable
    state. */
module IntegrityChecks {
  import opened Wrappers
  import opened Tables
  import opened Sums
  import opened Totals
  import opened StockInvariant
  import opened SalesInvariant
  import opened BooksInvariant
  import opened Commands
  import opened Invariant

  // ---------- stock ----------

  ghost predicate InventoryBalances(d: Db) {
    forall k | k in d.balances :: 0 <= d.balances[k].reserved <= d.balances[k].onHand
  }

  ghost predicate InventoryMatchesReservations(d: Db) {
    forall k | k in d.balances :: d.balances[k].reserved == Sum(d.lines, OpenAt(k))
  }

  ghost predicate LinesMatchReservations(d: Db) {
    forall i: Id | i < |d.lines| ::
      d.lines[i].reserved == match d.lines[i].reservation
                             case None => 0
                             case Some(r) => if r.status == Released then r.shipped else r.quantity
  }

  ghost predicate WorkLines(d: Db) {
    forall i: Id | i < |d.lines| && d.lines[i].reservation.Some? ::
      var r := d.lines[i].reservation.value;
      r.inspected <= r.picked <= (if r.status == Active then r.quantity - r.shipped else 0)
  }

  ghost predicate PendingCancellations(d: Db) {
    forall q: Id | q < |d.cancelRequests| && d.cancelRequests[q].status == Pending ::
      d.cancelRequests[q].order < |d.orders| && d.orders[d.cancelRequests[q].order].status == Confirmed
  }

  /** A worker holds only confirmed orders that nobody asked to cancel. */
  ghost predicate WorkAssignments(d: Db) {
    forall o: Id | o < |d.orders| && d.orders[o].assignee.Some? ::
      d.orders[o].status == Confirmed && !HasPending(d.cancelRequests, o)
  }

  /** No count started from more reserved than there was, and nothing of a SKU under count is picked. */
  ghost predicate StockCounts(d: Db) {
    forall c: Id | c < |d.counts| ::
      && d.counts[c].snapshot.reserved <= d.counts[c].snapshot.onHand
      && (d.counts[c].status == Counting ==>
            forall i: Id | i < |d.lines| && d.lines[i].sku == d.counts[c].sku && IsActive(d.lines[i]) ::
              Picked(d.lines[i]) == 0 && InspectedOf(d.lines[i]) == 0)
  }

  // ---------- money ----------

  predicate IsChargeOf(e: Entry, s: Id) {
    e.source.OfShipment? && e.source.shipmentLine == s
  }

  /** Every shipment line has a ledger entry, and every such entry repeats its quantity, price and amounts. */
  ghost predicate ShipmentLedger(d: Db) {
    forall s: Id | s < |d.shipmentLines| ::
      && (exists x: Id :: x < |d.entries| && IsChargeOf(d.entries[x], s))
      && forall x: Id | x < |d.entries| && IsChargeOf(d.entries[x], s) ::
           && d.shipmentLines[s].line < |d.lines|
           && d.entries[x].quantity == d.shipmentLines[s].quantity
           && d.entries[x].price == d.lines[d.shipmentLines[s].line].price
           && d.entries[x].supply == d.shipmentLines[s].quantity * d.lines[d.shipmentLines[s].line].price
           && d.entries[x].amount == d.entries[x].supply + d.entries[x].tax
  }

  ghost predicate PaymentsNotOverused(d: Db) {
    forall p: Id | p < |d.payments| ::
      Sum(d.allocations, LiveFrom(p)) + Sum(d.refunds, RefundedFrom(FromPayment(p))) <= d.payments[p].amount
  }

  ghost predicate DefectsNotOverresolved(d: Db) {
    forall i: Id | i < |d.dispositions| && d.dispositions[i].fate == Quarantine ::
      Sum(d.resolutions, ResolvedFor(i)) <= d.dispositions[i].quantity
  }

  ghost predicate CreditsNotOverrefunded(d: Db) {
    forall n: Id | n < |d.inspections| && d.inspections[n].credit.Some? ::
      Sum(d.refunds, RefundedFrom(FromCredit(n))) <= d.inspections[n].credit.value.amount
  }

  /** A refunded credit, and no refunded payment, has a ledger entry of its amount. */
  ghost predicate RefundLedgers(d: Db) {
    forall r: Id | r < |d.refunds| ::
      && (d.refunds[r].source.FromCredit? ==> exists x: Id :: x < |d.entries| && d.entries[x].source == OfRefund(r))
      && forall x: Id | x < |d.entries| && d.entries[x].source == OfRefund(r) ::
           d.refunds[r].source.FromCredit? && d.entries[x].amount == d.refunds[r].amount
  }

  ghost predicate TaxSettlements(d: Db) {
    && (forall j: Id | j < |d.settlements| ::
          && d.settlements[j].total == d.settlements[j].supply + d.settlements[j].tax
          && (d.settlements[j].status == Finalized ==> d.settlements[j].due.Some?))
    && (forall n: Id | n < |d.settlementLines| ::
          d.settlementLines[n].amount == d.settlementLines[n].supply + d.settlementLines[n].tax)
  }

  // ---------- they all hold ----------

  lemma StockHealthy(d: Db)
    requires StockInv(d)
    ensures InventoryBalances(d) && InventoryMatchesReservations(d) && LinesMatchReservations(d) && WorkLines(d)
    ensures PendingCancellations(d) && WorkAssignments(d) && StockCounts(d)
  {
    forall k | k in d.balances
      ensures 0 <= d.balances[k].reserved <= d.balances[k].onHand && d.balances[k].reserved == Sum(d.lines, OpenAt(k))
    {
      assert BalanceOk(d.balances, d.lines, d.movements, k);
    }
    forall i: Id | i < |d.lines| ensures LineOk(d.orders, d.lines[i]) {
    }
  }

  lemma ChargedOnce(d: Db, s: Id)
    requires ShipmentsOk(d) && EntriesOk(d) && s < |d.shipmentLines|
    ensures SentOk(d, s) && IsChargeOf(d.entries[d.shipmentLines[s].entry], s)
    ensures forall x: Id | x < |d.entries| && IsChargeOf(d.entries[x], s) :: x == d.shipmentLines[s].entry
  {
    assert SentOk(d, s);
    forall x: Id | x < |d.entries| && IsChargeOf(d.entries[x], s) ensures x == d.shipmentLines[s].entry {
      assert EntryOk(d, x);
    }
  }

  lemma SalesHealthy(d: Db)
    requires ShipmentsOk(d) && EntriesOk(d) && DefectsOk(d.inspections, d.dispositions, d.resolutions)
    ensures ShipmentLedger(d) && DefectsNotOverresolved(d)
  {
    forall s: Id | s < |d.shipmentLines|
      ensures SentOk(d, s) && IsChargeOf(d.entries[d.shipmentLines[s].entry], s)
      ensures forall x: Id | x < |d.entries| && IsChargeOf(d.entries[x], s) :: x == d.shipmentLines[s].entry
    {
      ChargedOnce(d, s);
    }
  }

  lemma RefundsHealthy(d: Db)
    requires EntriesOk(d) && RefundsOk(d)
    ensures CreditsNotOverrefunded(d) && RefundLedgers(d)
  {
    forall n: Id | n < |d.inspections| && d.inspections[n].credit.Some?
      ensures Sum(d.refunds, RefundedFrom(FromCredit(n))) <= d.inspections[n].credit.value.amount
    {
      assert RepaidOk(d.inspections, d.refunds, n);
    }
    forall r: Id, x: Id | r < |d.refunds| && x < |d.entries| && d.entries[x].source == OfRefund(r)
      ensures d.refunds[r].source.FromCredit? && d.entries[x].amount == d.refunds[r].amount
    {
      assert EntryOk(d, x);
    }
    forall r: Id | r < |d.refunds| && d.refunds[r].source.FromCredit?
      ensures exists x: Id :: x < |d.entries| && d.entries[x].source == OfRefund(r)
    {
      assert Posted(d.entries, r);
    }
  }

  lemma BooksHealthy(d: Db)
    requires SettlementsOk(d) && PaymentsOk(d)
    ensures PaymentsNotOverused(d) && TaxSettlements(d)
  {
    forall p: Id | p < |d.payments|
      ensures Sum(d.allocations, LiveFrom(p)) + Sum(d.refunds, RefundedFrom(FromPayment(p))) <= d.payments[p].amount
    {
      assert PaymentOk(d.payments, d.allocations, d.refunds, p);
    }
    forall j: Id | j < |d.settlements|
      ensures d.settlements[j].total == d.settlements[j].supply + d.settlements[j].tax
    {
      assert HeaderOk(d.settlements, d.settlementLines, j);
    }
    forall n: Id | n < |d.settlementLines|
      ensures d.settlementLines[n].amount == d.settlementLines[n].supply + d.settlementLines[n].tax
    {
      assert SettledOk(d, n);
    }
  }

  /** Nothing for these queries to report. */
  ghost predicate Healthy(d: Db) {
    && InventoryBalances(d) && InventoryMatchesReservations(d) && LinesMatchReservations(d) && WorkLines(d)
    && PendingCancellations(d) && WorkAssignments(d) && StockCounts(d)
    && ShipmentLedger(d) && DefectsNotOverresolved(d)
    && PaymentsNotOverused(d) && CreditsNotOverrefunded(d) && RefundLedgers(d) && TaxSettlements(d)
  }

  lemma InvHealthy(d: Db)
    requires Inv(d)
    ensures Healthy(d)
  {
    StockHealthy(d);
    SalesHealthy(d);
    RefundsHealthy(d);
    BooksHealthy(d);
  }

  lemma RunsStayHealthy(calls: seq<Call>)
    ensures Healthy(Run(START, calls).db)
  {
    ReachableInv(calls);
    InvHealthy(Run(START, calls).db);
  }
}
