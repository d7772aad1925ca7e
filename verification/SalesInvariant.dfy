/** What every command keeps true of shipments, the charges for them, returns, credits and defects. */
module SalesInvariant {
  import opened Wrappers
  import opened Tables
  import opened Sums
  import opened Totals
  import opened ReturnService
  import Taxes

  // ---------- shipments and their charges ----------

  /** A shipment line belongs to its shipment's order and warehouse and has one entry, charged at the order's price. */
  predicate SentOk(d: Db, s: Id)
    requires s < |d.shipmentLines|
  {
    var sent := d.shipmentLines[s];
    && sent.shipment < |d.shipments| && sent.line < |d.lines| && sent.entry < |d.entries|
    && d.lines[sent.line].order < |d.orders|
    && d.shipments[sent.shipment] == Shipment(d.lines[sent.line].order, d.lines[sent.line].sku.warehouse)
    && sent.quantity >= 1
    && var e := d.entries[sent.entry];
       && e.source == OfShipment(s, sent.line)
       && e.customer == d.orders[d.lines[sent.line].order].customer
       && e.quantity == sent.quantity && e.price == d.lines[sent.line].price
       && e.supply == sent.quantity * e.price
       && e.tax >= 0
       && e.amount == e.supply + e.tax
  }

  /** A line's shipments add up to its shipped quantity, and what was charged for them is the price of that quantity
      plus the tax target of that price: no trace of how the shipments were split. */
  ghost predicate ChargedOk(d: Db, i: Id) {
    && Sum(d.shipmentLines, SentOn(i)) == (if i < |d.lines| then Shipped(d.lines[i]) else 0)
    && Sum(d.entries, SupplyOn(i)) == (if i < |d.lines| then Shipped(d.lines[i]) * d.lines[i].price else 0)
    && Sum(d.entries, TaxOn(i)) ==
         (if i < |d.lines| then Taxes.Target(d.lines[i].tax, Shipped(d.lines[i]) * d.lines[i].price) else 0)
  }

  ghost predicate ShipmentsOk(d: Db) {
    && (forall s: Id | s < |d.shipmentLines| :: SentOk(d, s))
    && (forall i: Id :: ChargedOk(d, i))
    && (forall i: Id | i < |d.lines| :: Shipped(d.lines[i]) >= 0)
  }

  // ---------- ledger entries ----------

  function CustomerOf(d: Db, s: Id): Id
    requires s < |d.shipmentLines| && SentOk(d, s)
  {
    d.orders[d.lines[d.shipmentLines[s].line].order].customer
  }

  predicate EntryOk(d: Db, x: Id)
    requires x < |d.entries|
  {
    var e := d.entries[x];
    && e.amount == e.supply + e.tax
    && match e.source
       case OfShipment(s, i) =>
         s < |d.shipmentLines| && SentOk(d, s) && d.shipmentLines[s].entry == x && d.shipmentLines[s].line == i
       case OfCredit(n, s) =>
         && n < |d.inspections| && d.inspections[n].credit.Some? && d.inspections[n].shipmentLine == s
         && s < |d.shipmentLines| && SentOk(d, s) && e.customer == CustomerOf(d, s)
         && var c := d.inspections[n].credit.value;
            e.supply == -c.supply && e.tax == -c.tax && e.amount == -c.amount
       case OfRefund(r) =>
         && r < |d.refunds| && d.refunds[r].source.FromCredit?
         && e.amount == d.refunds[r].amount && e.amount >= 1
  }

  ghost predicate EntriesOk(d: Db) {
    forall x: Id | x < |d.entries| :: EntryOk(d, x)
  }

  // ---------- returns ----------

  predicate ReturnLineOk(d: Db, r: Id)
    requires r < |d.returnLines|
  {
    var l := d.returnLines[r];
    && l.parent < |d.returnRequests| && l.shipmentLine < |d.shipmentLines| && SentOk(d, l.shipmentLine)
    && l.sku == d.lines[d.shipmentLines[l.shipmentLine].line].sku
    && d.returnRequests[l.parent] == Return(CustomerOf(d, l.shipmentLine), d.shipmentLines[l.shipmentLine].shipment,
                                            d.returnRequests[l.parent].status)
    && l.requested >= 1
    && 0 <= l.normal && 0 <= l.defective && l.normal + l.defective == l.received <= l.requested
  }

  /** No more is asked back than was shipped. */
  ghost predicate AskedOk(d: Db, s: Id) {
    Sum(d.returnLines, RequestedOn(s)) <= (if s < |d.shipmentLines| then d.shipmentLines[s].quantity else 0)
  }

  ghost predicate ReturnsOk(d: Db) {
    && (forall r: Id | r < |d.returnLines| :: ReturnLineOk(d, r))
    && (forall s: Id :: AskedOk(d, s))
  }

  /** A return is inspected exactly when all its lines were received in full. */
  ghost predicate StatusesOk(returnRequests: seq<Return>, returnLines: seq<ReturnLine>) {
    forall p: Id | p < |returnRequests| ::
      returnRequests[p].status == Inspected <==> Complete(returnLines, p)
  }

  // ---------- inspections and credits ----------

  predicate InspectionOk(d: Db, n: Id)
    requires n < |d.inspections|
  {
    var p := d.inspections[n];
    && p.returnLine < |d.returnLines| && p.shipmentLine == d.returnLines[p.returnLine].shipmentLine
    && p.received >= 1 && p.normal >= 0 && p.defective >= 0 && p.normal + p.defective == p.received
    && p.shipmentLine < |d.shipmentLines| && SentOk(d, p.shipmentLine)
    && match p.credit
       case None => true
       case Some(c) =>
         && 1 <= c.quantity <= p.received
         && c.supply == c.quantity * d.lines[d.shipmentLines[p.shipmentLine].line].price
         && c.tax >= 0
         && c.amount == c.supply + c.tax
  }

  /** A return line's counters are the totals of its inspections. */
  ghost predicate TalliedOk(d: Db, r: Id) {
    var l := if r < |d.returnLines| then d.returnLines[r] else ReturnLine(0, 0, Sku(0, 0), 0, 0, 0, 0);
    && Sum(d.inspections, ReceivedFor(r)) == l.received
    && Sum(d.inspections, NormalFor(r)) == l.normal
    && Sum(d.inspections, DefectiveFor(r)) == l.defective
  }

  ghost predicate InspectionsOk(d: Db) {
    && (forall n: Id | n < |d.inspections| :: InspectionOk(d, n))
    && (forall r: Id :: TalliedOk(d, r))
    && (forall s: Id :: Sum(d.inspections, InspectedOn(s)) == Sum(d.returnLines, ReceivedOn(s)))
  }

  /** The tax taken back on a shipment line is its share for the units credited so far, and its ledger entries leave
      exactly the price and the tax of the other units. */
  ghost predicate CreditedOk(d: Db, s: Id) {
    var credited := Sum(d.inspections, CreditedOn(s));
    if s < |d.shipmentLines| && SentOk(d, s) then
      var sent := d.shipmentLines[s];
      var share := Taxes.Share(d.entries[sent.entry].tax, credited, sent.quantity);
      && Sum(d.inspections, CreditedTaxOn(s)) == share
      && Sum(d.entries, NetOn(s)) ==
          (sent.quantity - credited) * d.lines[sent.line].price + d.entries[sent.entry].tax - share
    else
      Sum(d.entries, NetOn(s)) == 0
  }

  ghost predicate CreditsOk(d: Db) {
    forall s: Id :: CreditedOk(d, s)
  }

  // ---------- defects ----------

  ghost predicate DefectsOk(inspections: seq<Inspection>, dispositions: seq<Disposition>,
                            resolutions: seq<Resolution>) {
    && (forall n: Id :: Sum(dispositions, DecidedFor(n)) <= (if n < |inspections| then inspections[n].defective else 0))
    && (forall i: Id | i < |dispositions| ::
        dispositions[i].inspection < |inspections| && dispositions[i].quantity >= 1)
    && (forall i: Id :: Sum(resolutions, ResolvedFor(i)) <=
          (if i < |dispositions| && dispositions[i].fate == Quarantine then dispositions[i].quantity else 0))
    && (forall x: Id | x < |resolutions| :: resolutions[x].disposition < |dispositions| && resolutions[x].quantity >= 1)
  }

  // ---------- goods in and out ----------

  /** Shipment movements mirror the shipped quantities, return movements the units found normal. */
  ghost predicate FlowOk(d: Db, k: Sku) {
    && Sum(d.movements, DeltaOfKind(k, Dispatched)) == -Sum(d.lines, ShippedAt(k))
    && Sum(d.movements, DeltaOfKind(k, Returned)) == Sum(d.returnLines, NormalAt(k))
  }

  ghost predicate FlowsOk(d: Db) {
    forall k :: FlowOk(d, k)
  }

  ghost predicate SalesInv(d: Db) {
    && ShipmentsOk(d)
    && EntriesOk(d)
    && ReturnsOk(d)
    && StatusesOk(d.returnRequests, d.returnLines)
    && InspectionsOk(d)
    && CreditsOk(d)
    && DefectsOk(d.inspections, d.dispositions, d.resolutions)
    && FlowsOk(d)
  }

  // ---------- commands that do not ship, return or charge ----------

  /** The order table may grow and change status or worker; who ordered what from where stays. */
  ghost predicate OrdersKept(orders: seq<Order>, orders': seq<Order>) {
    && |orders| <= |orders'|
    && (forall o: Id | o < |orders| ::
        orders'[o].customer == orders[o].customer && orders'[o].warehouse == orders[o].warehouse)
  }

  /** Lines may be added and reservations rewritten, but nothing is shipped. */
  ghost predicate LinesKept(lines: seq<Line>, lines': seq<Line>) {
    && |lines| <= |lines'|
    && (forall i: Id | i < |lines| ::
          && lines'[i] == lines[i].(reserved := lines'[i].reserved, reservation := lines'[i].reservation)
          && Shipped(lines'[i]) == Shipped(lines[i]))
    && (forall i: Id | |lines| <= i < |lines'| :: Shipped(lines'[i]) == 0)
  }

  /** Only receipts and corrections are added to the movements. */
  ghost predicate MovementsKept(movements: seq<Movement>, movements': seq<Movement>) {
    && |movements| <= |movements'| && movements'[..|movements|] == movements
    && (forall m: Id | |movements| <= m < |movements'| ::
        movements'[m].kind == Received || movements'[m].kind == Adjusted)
  }

  ghost predicate Quiet(d: Db, d': Db) {
    && d' == d.(balances := d'.balances, movements := d'.movements, counts := d'.counts, orders := d'.orders,
                lines := d'.lines, events := d'.events, cancelRequests := d'.cancelRequests)
    && OrdersKept(d.orders, d'.orders)
    && LinesKept(d.lines, d'.lines)
    && MovementsKept(d.movements, d'.movements)
  }

  lemma QuietSent(d: Db, d': Db, s: Id)
    requires Quiet(d, d') && s < |d.shipmentLines| && SentOk(d, s)
    ensures SentOk(d', s) && CustomerOf(d', s) == CustomerOf(d, s)
  {
  }

  lemma QuietShipments(d: Db, d': Db)
    requires Quiet(d, d') && ShipmentsOk(d)
    ensures ShipmentsOk(d')
  {
    forall s: Id | s < |d.shipmentLines| ensures SentOk(d', s) {
      QuietSent(d, d', s);
    }
    forall i: Id ensures ChargedOk(d', i) {
      assert ChargedOk(d, i);
    }
  }

  lemma QuietReturns(d: Db, d': Db)
    requires Quiet(d, d') && ReturnsOk(d)
    ensures ReturnsOk(d')
  {
    forall r: Id | r < |d.returnLines| ensures ReturnLineOk(d', r) {
      assert ReturnLineOk(d, r);
    }
    forall s: Id ensures AskedOk(d', s) {
      assert AskedOk(d, s);
    }
  }

  lemma QuietInspections(d: Db, d': Db)
    requires Quiet(d, d') && InspectionsOk(d)
    ensures InspectionsOk(d')
  {
    forall n: Id | n < |d.inspections| ensures InspectionOk(d', n) {
      assert InspectionOk(d, n);
    }
    forall r: Id ensures TalliedOk(d', r) {
      assert TalliedOk(d, r);
    }
  }

  lemma QuietCredits(d: Db, d': Db)
    requires Quiet(d, d') && ShipmentsOk(d) && CreditsOk(d)
    ensures CreditsOk(d')
  {
    forall s: Id ensures CreditedOk(d', s) {
      assert CreditedOk(d, s);
      if s < |d.shipmentLines| {
        QuietSent(d, d', s);
      }
    }
  }

  lemma QuietFlow(d: Db, d': Db, k: Sku)
    requires Quiet(d, d') && FlowOk(d, k)
    ensures FlowOk(d', k)
  {
    var moved := d'.movements[|d.movements|..];
    assert d'.movements == d.movements + moved;
    SumConcat(d.movements, moved, DeltaOfKind(k, Dispatched));
    SumConcat(d.movements, moved, DeltaOfKind(k, Returned));
    SumZero(moved, DeltaOfKind(k, Dispatched));
    SumZero(moved, DeltaOfKind(k, Returned));
    var added := d'.lines[|d.lines|..];
    assert d'.lines == d'.lines[..|d.lines|] + added;
    SumConcat(d'.lines[..|d.lines|], added, ShippedAt(k));
    SumZero(added, ShippedAt(k));
    SumEqual(d.lines, ShippedAt(k), d'.lines[..|d.lines|], ShippedAt(k));
  }

  lemma QuietKeeps(d: Db, d': Db)
    requires Quiet(d, d') && SalesInv(d)
    ensures SalesInv(d')
  {
    QuietShipments(d, d');
    forall x: Id | x < |d.entries| ensures EntryOk(d', x) {
      assert EntryOk(d, x);
    }
    QuietReturns(d, d');
    QuietInspections(d, d');
    QuietCredits(d, d');
    forall k ensures FlowOk(d', k) {
      QuietFlow(d, d', k);
    }
  }

  lemma QuietTransitive(d: Db, e: Db, f: Db)
    requires Quiet(d, e) && Quiet(e, f)
    ensures Quiet(d, f)
  {
    assert f.movements[..|d.movements|] == f.movements[..|e.movements|][..|d.movements|];
  }
}
