/** Returns, inspections, credits and defects as the service runs them. */
module ReturnCommands {
  import opened Wrappers
  import opened Tables
  import opened Sums
  import opened Totals
  import opened Store
  import opened ReturnService

  method Request(db: Database, customer: Id, rows: seq<ReturnRow>) returns (answer: Result<Reply, Error>)
    modifies db
    ensures Performs(ReturnService.Request(old(db.tables), customer, rows), db.tables, answer)
  {
    if !RowsValid(rows) { return Failure(BadRequest); }
    var d := db.tables;
    for n := 0 to |rows|
      invariant db.tables == d
      invariant forall m | 0 <= m < n :: ShippedTo(d, rows[m].shipmentLine, customer)
    {
      if !ShippedTo(d, rows[n].shipmentLine, customer) { return Failure(NotFound); }
    }
    var shipment := d.shipmentLines[rows[0].shipmentLine].shipment;
    if exists n | 0 <= n < |rows| :: d.shipmentLines[rows[n].shipmentLine].shipment != shipment {
      return Failure(MixedReturn);
    }
    for n := 0 to |rows|
      invariant db.tables == d
      invariant forall m | 0 <= m < n ::
                  Sum(d.returnLines, RequestedOn(rows[m].shipmentLine)) + rows[m].quantity <=
                      d.shipmentLines[rows[m].shipmentLine].quantity
    {
      var requested := Sum(d.returnLines, RequestedOn(rows[n].shipmentLine));
      if requested + rows[n].quantity > d.shipmentLines[rows[n].shipmentLine].quantity {
        return Failure(ReturnExceedsShipment);
      }
    }
    var parent := |d.returnRequests|;
    db.InsertReturn(Return(customer, shipment, Requested));
    ghost var all := seq(|rows|, n requires 0 <= n < |rows| => RequestRow(d, parent, rows[n]));
    for n := 0 to |rows|
      invariant db.tables == d.(returnRequests := d.returnRequests + [Return(customer, shipment, Requested)],
                                returnLines := d.returnLines + all[..n])
    {
      var sku := d.lines[d.shipmentLines[rows[n].shipmentLine].line].sku;
      var added := ReturnLine(parent, rows[n].shipmentLine, sku, rows[n].quantity, 0, 0, 0);
      assert all[..n + 1] == all[..n] + [added];
      db.InsertReturnLine(added);
    }
    assert all[..|rows|] == all;
    return Success(ReturnRequested(parent));
  }

  method Inspect(db: Database, i: Id, received: int, normal: int, defective: int) returns (answer: Result<Reply, Error>)
    modifies db
    ensures Performs(ReturnService.Inspect(old(db.tables), i, received, normal, defective), db.tables, answer)
  {
    if !InspectionValid(received, normal, defective) { return Failure(BadRequest); }
    if i >= |db.tables.returnLines| || db.tables.returnLines[i].parent >= |db.tables.returnRequests| {
      return Failure(NotFound);
    }
    var l := db.tables.returnLines[i];
    if received > l.requested - l.received { return Failure(InspectionExceedsReturn); }
    if normal > 0 {
      if UnderCount(db.tables.counts, l.sku) { return Failure(SkuUnderCount); }
      var b := BalanceOf(db.tables.balances, l.sku);
      db.UpdateBalance(l.sku, b.(onHand := b.onHand + normal));
    }
    db.InsertInspection(Inspection(i, l.shipmentLine, received, normal, defective, None));
    if normal > 0 {
      db.InsertMovement(Movement(l.sku, Returned, normal));
    }
    var l' := l.(received := l.received + received, normal := l.normal + normal, defective := l.defective + defective);
    db.UpdateReturnLine(i, l');
    var status := if Complete(db.tables.returnLines, l.parent) then Inspected else Inspecting;
    db.UpdateReturn(l.parent, db.tables.returnRequests[l.parent].(status := status));
    return Success(ReturnInspected(i, status, received, normal, defective));
  }

  method CreditReturn(db: Database, n: Id, quantity: int, today: Date) returns (answer: Result<Reply, Error>)
    modifies db
    ensures Performs(ReturnService.CreditReturn(old(db.tables), n, quantity, today), db.tables, answer)
  {
    if quantity < 1 { return Failure(BadRequest); }
    if !Creditable(db.tables, n) { return Failure(NotFound); }
    var inspection := db.tables.inspections[n];
    if quantity > inspection.received { return Failure(CreditExceedsInspection); }
    if inspection.credit.Some? { return Failure(AlreadyCredited); }
    var s := inspection.shipmentLine;
    var sent := db.tables.shipmentLines[s];
    var price, shipmentTax := db.tables.lines[sent.line].price, db.tables.entries[sent.entry].tax;
    var credited, creditedTax := Sum(db.tables.inspections, CreditedOn(s)),
        Sum(db.tables.inspections, CreditedTaxOn(s));
    var target := if sent.quantity <= 0 then 0
        else (shipmentTax * (credited + quantity) + sent.quantity / 2) / sent.quantity;
    var tax, supply := target - creditedTax, quantity * price;
    var amount := supply + tax;
    var credit := Credit(quantity, supply, tax, amount);
    var customer := db.tables.returnRequests[db.tables.returnLines[inspection.returnLine].parent].customer;
    var date := if Billed(db.tables, sent.entry) then Date(today.month + 1, 1) else today;
    db.UpdateInspection(n, inspection.(credit := Some(credit)));
    db.InsertEntry(Entry(customer, OfCredit(n, s), date, quantity, price, -supply, -tax, -amount));
    return Success(ReturnCredited(n, credit));
  }

  method Dispose(db: Database, n: Id, quantity: int, fate: Fate, supplierActive: bool)
    returns (answer: Result<Reply, Error>)
    modifies db
    ensures Performs(ReturnService.Dispose(old(db.tables), n, quantity, fate, supplierActive), db.tables, answer)
  {
    if quantity < 1 { return Failure(BadRequest); }
    if n >= |db.tables.inspections| { return Failure(NotFound); }
    var decided := Sum(db.tables.dispositions, DecidedFor(n));
    if quantity > db.tables.inspections[n].defective - decided { return Failure(DispositionExceedsDefects); }
    if fate == SupplierReturn && !supplierActive { return Failure(NotFound); }
    db.InsertDisposition(Disposition(n, quantity, fate));
    return Success(DefectDecided(n, quantity, fate));
  }

  method Resolve(db: Database, i: Id, quantity: int, fate: Fate, supplierActive: bool)
    returns (answer: Result<Reply, Error>)
    modifies db
    ensures Performs(ReturnService.Resolve(old(db.tables), i, quantity, fate, supplierActive), db.tables, answer)
  {
    if quantity < 1 || fate == Quarantine { return Failure(BadRequest); }
    if i >= |db.tables.dispositions| || db.tables.dispositions[i].fate != Quarantine { return Failure(NotFound); }
    var resolved := Sum(db.tables.resolutions, ResolvedFor(i));
    if quantity > db.tables.dispositions[i].quantity - resolved { return Failure(ResolutionExceedsQuarantine); }
    if fate == SupplierReturn && !supplierActive { return Failure(NotFound); }
    var x := |db.tables.resolutions|;
    db.InsertResolution(Resolution(i, quantity, fate));
    return Success(DefectResolved(x, quantity, fate));
  }
}
