/** What customers are charged, what returns take back, and where the goods are, after any run of commands. */
module Ledger {
  import opened Wrappers
  import opened Tables
  import opened Sums
  import opened Totals
  import opened StockInvariant
  import opened SalesInvariant
  import opened Commands
  import opened Invariant
  import Taxes

  // ---------- charges do not depend on how an order was split ----------

  /** Two lines of the same price and tax that have shipped equally much were charged equally much, whatever
      shipments, in whatever runs, it took. */
  lemma SplitIndependent(calls: seq<Call>, i: Id, others: seq<Call>, j: Id)
    requires i < |Run(START, calls).db.lines| && j < |Run(START, others).db.lines|
    requires var a, b := Run(START, calls).db.lines[i], Run(START, others).db.lines[j];
             Shipped(a) == Shipped(b) && a.price == b.price && a.tax == b.tax
    ensures var d, e := Run(START, calls).db, Run(START, others).db;
            && Sum(d.entries, SupplyOn(i)) == Sum(e.entries, SupplyOn(j))
            && Sum(d.entries, TaxOn(i)) == Sum(e.entries, TaxOn(j))
  {
    ReachableInv(calls);
    ReachableInv(others);
    assert ChargedOk(Run(START, calls).db, i);
    assert ChargedOk(Run(START, others).db, j);
  }

  /** A line's total tax is within half a won of the exact tax, and no shipment was charged a negative tax. */
  lemma TaxWithinHalfWon(d: Db, i: Id)
    requires SalesInv(d) && i < |d.lines| && d.lines[i].tax.Taxable?
    ensures var l := d.lines[i];
            -5000 < 10000 * Sum(d.entries, TaxOn(i)) - Shipped(l) * l.price * l.tax.rateBps <= 5000
    ensures forall s: Id | s < |d.shipmentLines| && d.shipmentLines[s].line == i ::
              d.shipmentLines[s].entry < |d.entries| && d.entries[d.shipmentLines[s].entry].tax >= 0
  {
    assert ChargedOk(d, i);
    Taxes.MulLeq(0, Shipped(d.lines[i]), d.lines[i].price);
    Taxes.TargetRounds(d.lines[i].tax, Shipped(d.lines[i]) * d.lines[i].price);
    forall s: Id | s < |d.shipmentLines|
      ensures d.shipmentLines[s].entry < |d.entries| && d.entries[d.shipmentLines[s].entry].tax >= 0
    {
      assert SentOk(d, s);
    }
  }

  // ---------- credited <= received <= requested <= shipped ----------

  lemma ReturnChain(d: Db, s: Id)
    requires SalesInv(d) && s < |d.shipmentLines|
    ensures 0 <= Sum(d.inspections, CreditedOn(s)) <= Sum(d.inspections, InspectedOn(s))
    ensures Sum(d.inspections, InspectedOn(s)) == Sum(d.returnLines, ReceivedOn(s)) <=
              Sum(d.returnLines, RequestedOn(s))
    ensures Sum(d.returnLines, RequestedOn(s)) <= d.shipmentLines[s].quantity
  {
    forall n: Id | n < |d.inspections| ensures 0 <= CreditedUnits(d.inspections[n]) <= d.inspections[n].received {
      assert InspectionOk(d, n);
    }
    SumNonNegative(d.inspections, CreditedOn(s));
    SumLeq(d.inspections, CreditedOn(s), d.inspections, InspectedOn(s));
    forall r: Id | r < |d.returnLines| ensures d.returnLines[r].received <= d.returnLines[r].requested {
      assert ReturnLineOk(d, r);
    }
    SumLeq(d.returnLines, ReceivedOn(s), d.returnLines, RequestedOn(s));
    assert AskedOk(d, s);
  }

  /** Decisions on defects stay within the defects found, resolutions within the quarantined units. */
  lemma DefectChain(d: Db, n: Id, i: Id)
    requires SalesInv(d) && n < |d.inspections| && i < |d.dispositions|
    ensures Sum(d.dispositions, DecidedFor(n)) <= d.inspections[n].defective <= d.inspections[n].received
    ensures Sum(d.resolutions, ResolvedFor(i)) <=
              (if d.dispositions[i].fate == Quarantine then d.dispositions[i].quantity else 0)
  {
    assert InspectionOk(d, n);
  }

  // ---------- what a shipment line still costs ----------

  /** A shipment line never costs less than nothing, and costs nothing exactly when it was returned and credited in
      full or was free of charge. */
  lemma NetOfShipmentLine(d: Db, s: Id)
    requires SalesInv(d) && s < |d.shipmentLines|
    ensures Sum(d.entries, NetOn(s)) >= 0
    ensures SentOk(d, s)
    ensures Sum(d.entries, NetOn(s)) == 0 <==>
            || Sum(d.inspections, CreditedOn(s)) == d.shipmentLines[s].quantity
            || d.lines[d.shipmentLines[s].line].price == 0
  {
    assert SentOk(d, s) && CreditedOk(d, s);
    var sent := d.shipmentLines[s];
    var price, tax, credited := d.lines[sent.line].price, d.entries[sent.entry].tax, Sum(d.inspections, CreditedOn(s));
    ReturnChain(d, s);
    Taxes.ShareBounds(tax, credited, sent.quantity);
    Taxes.MulLeq(0, sent.quantity - credited, price);
    if credited == sent.quantity {
      Taxes.ShareEnds(tax, sent.quantity);
    } else if price == 0 {
      FreeLineUntaxed(d, s);
    } else {
      Taxes.MulLeq(1, price, sent.quantity - credited);
    }
  }

  /** A line sold at price 0 is charged no tax either. */
  lemma FreeLineUntaxed(d: Db, s: Id)
    requires SalesInv(d) && s < |d.shipmentLines| && SentOk(d, s) && d.lines[d.shipmentLines[s].line].price == 0
    ensures d.entries[d.shipmentLines[s].entry].tax == 0
  {
    var i := d.shipmentLines[s].line;
    assert ChargedOk(d, i);
    forall x: Id | x < |d.entries| && d.entries[x].source.OfShipment? ensures d.entries[x].tax >= 0 {
      assert EntryOk(d, x);
    }
    SumBounds(d.entries, TaxOn(i), d.shipmentLines[s].entry);
    assert Shipped(d.lines[i]) * d.lines[i].price == 0;
  }

  /** The tax of a shipment line is taken back in full exactly when the tax of the units not credited rounds away. */
  lemma TaxFullyReturned(d: Db, s: Id)
    requires SalesInv(d) && s < |d.shipmentLines|
    ensures SentOk(d, s)
    ensures var sent, credited := d.shipmentLines[s], Sum(d.inspections, CreditedOn(s));
            var tax := d.entries[sent.entry].tax;
            && 0 <= Sum(d.inspections, CreditedTaxOn(s)) <= tax
            && (Sum(d.inspections, CreditedTaxOn(s)) == tax <==> tax * (sent.quantity - credited) <= sent.quantity / 2)
  {
    assert SentOk(d, s) && CreditedOk(d, s);
    ReturnChain(d, s);
    var sent, credited := d.shipmentLines[s], Sum(d.inspections, CreditedOn(s));
    Taxes.ShareBounds(d.entries[sent.entry].tax, credited, sent.quantity);
    Taxes.ShareIsWhole(d.entries[sent.entry].tax, credited, sent.quantity);
  }

  // ---------- a customer's whole ledger ----------

  /** The customers of the shipment lines, in order. */
  function Customers(d: Db, n: nat): (customers: seq<Id>)
    requires n <= |d.shipmentLines| && forall s: Id | s < n :: SentOk(d, s)
    ensures |customers| == n
    ensures forall s: Id | s < n :: customers[s] == CustomerOf(d, s)
  {
    if n == 0 then [] else Customers(d, n - 1) + [CustomerOf(d, n - 1)]
  }

  /** What the customer's first `n` shipment lines still cost. */
  function Nets(entries: seq<Entry>, customers: seq<Id>, c: Id, n: nat): int
    requires n <= |customers|
  {
    if n == 0 then 0
    else Nets(entries, customers, c, n - 1) + (if customers[n - 1] == c then Sum(entries, NetOn(n - 1)) else 0)
  }

  function LineOf(e: Entry): Option<Id> {
    match e.source
    case OfShipment(s, _) => Some(s)
    case OfCredit(_, s) => Some(s)
    case OfRefund(_) => None
  }

  lemma {:induction false} NetsAppend(entries: seq<Entry>, e: Entry, customers: seq<Id>, c: Id, n: nat)
    requires n <= |customers|
    ensures var own := match LineOf(e) case None => false case Some(s) => s < n && customers[s] == c;
            Nets(entries + [e], customers, c, n) == Nets(entries, customers, c, n) + (if own then e.amount else 0)
  {
    if n > 0 {
      NetsAppend(entries, e, customers, c, n - 1);
      SumAppend(entries, e, NetOn(n - 1));
    }
  }

  lemma {:induction false} NetsOfNothing(customers: seq<Id>, c: Id, n: nat)
    requires n <= |customers|
    ensures Nets([], customers, c, n) == 0
  {
    if n > 0 {
      NetsOfNothing(customers, c, n - 1);
    }
  }

  /** Sorting a customer's entries by shipment line loses nothing: the ledger is the open lines plus the refunds. */
  lemma {:induction false} LedgerByLine(entries: seq<Entry>, customers: seq<Id>, c: Id)
    requires forall x: Id | x < |entries| && LineOf(entries[x]).Some? ::
               LineOf(entries[x]).value < |customers| && customers[LineOf(entries[x]).value] == entries[x].customer
    ensures Sum(entries, OwedBy(c)) == Nets(entries, customers, c, |customers|) + Sum(entries, RefundedTo(c))
  {
    if entries == [] {
      NetsOfNothing(customers, c, |customers|);
    } else {
      var init, last := entries[..|entries| - 1], entries[|entries| - 1];
      assert entries == init + [last];
      LedgerByLine(init, customers, c);
      NetsAppend(init, last, customers, c, |customers|);
    }
  }

  lemma {:induction false} NetsNonNegative(entries: seq<Entry>, customers: seq<Id>, c: Id, n: nat)
    requires n <= |customers| && forall s: Id | s < n :: Sum(entries, NetOn(s)) >= 0
    ensures Nets(entries, customers, c, n) >= 0
  {
    if n > 0 {
      NetsNonNegative(entries, customers, c, n - 1);
    }
  }

  /** No customer's ledger of shipments, credits and refunded credits ever falls below zero. */
  lemma LedgerNeverNegative(d: Db, c: Id)
    requires SalesInv(d)
    ensures Sum(d.entries, OwedBy(c)) >= 0
  {
    forall s: Id | s < |d.shipmentLines| ensures SentOk(d, s) && Sum(d.entries, NetOn(s)) >= 0 {
      NetOfShipmentLine(d, s);
    }
    var customers := Customers(d, |d.shipmentLines|);
    forall x: Id | x < |d.entries|
      ensures LineOf(d.entries[x]).Some? ==>
                LineOf(d.entries[x]).value < |customers|
                    && customers[LineOf(d.entries[x]).value] == d.entries[x].customer
      ensures d.entries[x].source.OfRefund? ==> d.entries[x].amount >= 1
    {
      assert EntryOk(d, x);
    }
    LedgerByLine(d.entries, customers, c);
    NetsNonNegative(d.entries, customers, c, |customers|);
    SumNonNegative(d.entries, RefundedTo(c));
  }

  lemma LedgersOfRuns(calls: seq<Call>, c: Id)
    ensures Sum(Run(START, calls).db.entries, OwedBy(c)) >= 0
  {
    ReachableInv(calls);
    LedgerNeverNegative(Run(START, calls).db, c);
  }

  // ---------- goods ----------

  /** Of every SKU, what was received and corrected is on hand, or was shipped and not found good on return. */
  lemma GoodsConserved(calls: seq<Call>, k: Sku)
    ensures var d := Run(START, calls).db;
            Sum(d.movements, DeltaOfKind(k, Received)) + Sum(d.movements, DeltaOfKind(k, Adjusted))
            == BalanceOf(d.balances, k).onHand + Sum(d.lines, ShippedAt(k)) - Sum(d.returnLines, NormalAt(k))
  {
    ReachableInv(calls);
    var d := Run(START, calls).db;
    assert BalanceOk(d.balances, d.lines, d.movements, k) && FlowOk(d, k);
    SumSplit(d.movements, DeltaAt(k), SuppliedAt(k), TradedAt(k));
    SumSplit(d.movements, SuppliedAt(k), DeltaOfKind(k, Received), DeltaOfKind(k, Adjusted));
    SumSplit(d.movements, TradedAt(k), DeltaOfKind(k, Dispatched), DeltaOfKind(k, Returned));
  }

  /** The reservation event log replays: created minus freed minus sent is what the line still holds, and the line
      holds something exactly while its reservation is active. */
  lemma EventsReplay(calls: seq<Call>, i: Id)
    requires i < |Run(START, calls).db.lines|
    ensures var d := Run(START, calls).db;
            var created, freed := Sum(d.events, EventsOf(i, Created)), Sum(d.events, EventsOf(i, Freed));
            var sent := Sum(d.events, EventsOf(i, Sent));
            && created - freed - sent == Open(d.lines[i])
            && sent == Shipped(d.lines[i])
            && created - freed == d.lines[i].reserved
            && sent <= created - freed <= d.lines[i].requested
            && (IsActive(d.lines[i]) <==> created - freed - sent > 0)
  {
    ReachableInv(calls);
    var d := Run(START, calls).db;
    assert EventOk(d.events, d.lines, i);
    assert LineOk(d.orders, d.lines[i]);
  }
}
