/** What the invariant means to a reader: statements about the database after any run of commands. */
module Guarantees {
  import opened Wrappers
  import opened Tables
  import opened Sums
  import opened Totals
  import opened StockInvariant
  import opened SalesInvariant
  import opened BooksInvariant
  import opened Commands
  import opened Invariant
  import Calendar

  // ---------- stock ----------

  /** The three places that keep a SKU's stock agree, and no more is reserved than is there. */
  lemma BalancesAgree(calls: seq<Call>, k: Sku)
    ensures var d := Run(START, calls).db;
            && BalanceOf(d.balances, k).reserved == Sum(d.lines, OpenAt(k))
            && BalanceOf(d.balances, k).onHand == Sum(d.movements, DeltaAt(k))
            && 0 <= BalanceOf(d.balances, k).reserved <= BalanceOf(d.balances, k).onHand
  {
    ReachableInv(calls);
    var d := Run(START, calls).db;
    assert BalanceOk(d.balances, d.lines, d.movements, k);
  }

  /** Inspected units were picked, picked units are still open, and a reservation that is not active has no work. */
  lemma WorkStaysInLine(calls: seq<Call>, i: Id)
    requires i < |Run(START, calls).db.lines|
    ensures var l := Run(START, calls).db.lines[i];
            && 0 <= InspectedOf(l) <= Picked(l) <= Open(l)
            && 0 <= Shipped(l) <= l.reserved <= l.requested
            && (!IsActive(l) ==> Open(l) == 0 && l.reserved == Shipped(l))
            && (IsActive(l) ==> Open(l) > 0 && l.reserved == Shipped(l) + Open(l))
  {
    ReachableInv(calls);
    var d := Run(START, calls).db;
    assert LineOk(d.orders, d.lines[i]);
  }

  // ---------- charges and credits ----------

  /** What an order line was charged so far is the price of what it shipped, and that price's tax rounded half up. */
  lemma LineCharges(calls: seq<Call>, i: Id)
    requires i < |Run(START, calls).db.lines|
    ensures var d := Run(START, calls).db;
            var supply := Shipped(d.lines[i]) * d.lines[i].price;
            && Sum(d.shipmentLines, SentOn(i)) == Shipped(d.lines[i])
            && Sum(d.entries, SupplyOn(i)) == supply
            && Sum(d.entries, TaxOn(i)) == match d.lines[i].tax
                                           case Exempt => 0
                                           case Taxable(rateBps) => (supply * rateBps + 5000) / 10000
  {
    ReachableInv(calls);
    assert ChargedOk(Run(START, calls).db, i);
  }

  /** The tax taken back on a shipment line is its tax's share for the units credited, rounded half up. */
  ghost predicate CreditedByShare(d: Db, s: Id) {
    && s < |d.shipmentLines| && d.shipmentLines[s].entry < |d.entries| && d.shipmentLines[s].quantity >= 1
    && var sent := d.shipmentLines[s];
       Sum(d.inspections, CreditedTaxOn(s)) ==
         (d.entries[sent.entry].tax * Sum(d.inspections, CreditedOn(s)) + sent.quantity / 2) / sent.quantity
  }

  lemma CreditsAreShare(d: Db, s: Id)
    requires ShipmentsOk(d) && CreditsOk(d) && s < |d.shipmentLines|
    ensures CreditedByShare(d, s)
  {
    assert SentOk(d, s) && CreditedOk(d, s);
  }

  lemma LineCredits(calls: seq<Call>, s: Id)
    requires s < |Run(START, calls).db.shipmentLines|
    ensures CreditedByShare(Run(START, calls).db, s)
  {
    ReachableInv(calls);
    CreditsAreShare(Run(START, calls).db, s);
  }

  /** Normal and defective units make up the received ones on a return line and over its inspections alike. */
  lemma ReturnLevels(calls: seq<Call>, r: Id)
    requires r < |Run(START, calls).db.returnLines|
    ensures var d := Run(START, calls).db;
            var l := d.returnLines[r];
            && 0 <= l.normal && 0 <= l.defective && l.normal + l.defective == l.received <= l.requested
            && l.received == Sum(d.inspections, ReceivedFor(r))
            && l.normal == Sum(d.inspections, NormalFor(r))
            && l.defective == Sum(d.inspections, DefectiveFor(r))
  {
    ReachableInv(calls);
    var d := Run(START, calls).db;
    assert ReturnLineOk(d, r) && TalliedOk(d, r);
  }

  // ---------- money received ----------

  /** No payment is used beyond its amount, a voided one not at all, and no allocation is reversed twice. */
  lemma PaymentsStayCovered(calls: seq<Call>, p: Id)
    requires p < |Run(START, calls).db.payments|
    ensures var d := Run(START, calls).db;
            var live, refunded := Sum(d.allocations, LiveFrom(p)), Sum(d.refunds, RefundedFrom(FromPayment(p)));
            && live + refunded <= d.payments[p].amount
            && (d.payments[p].status == Voided ==> live == 0 && refunded == 0)
            && forall a: Id | a < |d.allocations| && d.allocations[a].payment == p ::
                 d.allocations[a].reversals == if d.payments[p].status == Voided then 1 else 0
  {
    ReachableInv(calls);
    var d := Run(START, calls).db;
    assert PaymentOk(d.payments, d.allocations, d.refunds, p);
    forall a: Id | a < |d.allocations| && d.allocations[a].payment == p
      ensures d.allocations[a].reversals == if d.payments[p].status == Voided then 1 else 0
    {
      assert AllocationOk(d.payments, d.settlements, d.allocations[a]);
    }
  }

  /** Nothing is paid towards a settlement beyond what it bills, or beyond nothing if it bills less. */
  lemma SettlementsNotOverpaid(calls: seq<Call>, j: Id)
    ensures var d := Run(START, calls).db;
            Sum(d.allocations, LiveTo(j)) <= Max(0, Sum(d.settlementLines, AmountIn(j)))
  {
    ReachableInv(calls);
    assert PaidOk(Run(START, calls).db, j);
  }

  /** A credit is paid out at most once over. */
  lemma CreditsNotOverpaid(calls: seq<Call>, n: Id)
    ensures var d := Run(START, calls).db;
            Sum(d.refunds, RefundedFrom(FromCredit(n))) <=
              (if n < |d.inspections| && d.inspections[n].credit.Some? then d.inspections[n].credit.value.amount else 0)
  {
    ReachableInv(calls);
    var d := Run(START, calls).db;
    assert RepaidOk(d.inspections, d.refunds, n);
  }

  /** A settlement falls due from the day it is finalized, in the month after the one it bills, on the customer's
      due day as it was when drafted, or on the last day if the month is too short. */
  lemma SettlementsFallDue(calls: seq<Call>, j: Id)
    requires j < |Run(START, calls).db.settlements|
    ensures var h := Run(START, calls).db.settlements[j];
            h.due == match h.status
                     case Draft => None
                     case Finalized => Some(Date(h.month + 1, Min(h.dueDay, Calendar.DaysIn(h.month + 1))))
  {
    ReachableInv(calls);
    var h := Run(START, calls).db.settlements[j];
    assert DueOk(h);
    Calendar.DueInNextMonth(h.month, h.dueDay);
  }
}
