/** Returns: request, inspection, credit, and what becomes of defective units. */
module ReturnService {
  import opened Wrappers
  import opened Tables
  import opened Sums
  import opened Totals
  import opened CatalogService
  import Taxes

  // ---------- request ----------

  predicate RowsValid(rows: seq<ReturnRow>) {
    && rows != []
    && (forall n | 0 <= n < |rows| :: rows[n].quantity >= 1)
    && (forall m, n | 0 <= m < n < |rows| :: rows[m].shipmentLine != rows[n].shipmentLine)
  }

  /** The shipment line exists and was shipped to the customer. */
  predicate ShippedTo(d: Db, s: Id, customer: Id) {
    && s < |d.shipmentLines|
    && d.shipmentLines[s].shipment < |d.shipments|
    && d.shipments[d.shipmentLines[s].shipment].order < |d.orders|
    && d.orders[d.shipments[d.shipmentLines[s].shipment].order].customer == customer
    && d.shipmentLines[s].line < |d.lines|
  }

  function RequestRow(d: Db, parent: Id, row: ReturnRow): ReturnLine
    requires row.shipmentLine < |d.shipmentLines|
    requires d.shipmentLines[row.shipmentLine].line < |d.lines|
  {
    ReturnLine(parent, row.shipmentLine, d.lines[d.shipmentLines[row.shipmentLine].line].sku, row.quantity, 0, 0, 0)
  }

  function Request(d: Db, customer: Id, rows: seq<ReturnRow>): Outcome {
    if !RowsValid(rows) then Failed(BadRequest)
    else if exists n | 0 <= n < |rows| :: !ShippedTo(d, rows[n].shipmentLine, customer) then Failed(NotFound)
    else
      var shipment := d.shipmentLines[rows[0].shipmentLine].shipment;
      if exists n | 0 <= n < |rows| :: d.shipmentLines[rows[n].shipmentLine].shipment != shipment then
        Failed(MixedReturn)
      else if exists n | 0 <= n < |rows| ::
                Sum(d.returnLines, RequestedOn(rows[n].shipmentLine)) + rows[n].quantity
                > d.shipmentLines[rows[n].shipmentLine].quantity then Failed(ReturnExceedsShipment)
      else
        var parent := |d.returnRequests|;
        Done(d.(returnRequests := d.returnRequests + [Return(customer, shipment, Requested)],
                returnLines := d.returnLines
                               + seq(|rows|, n requires 0 <= n < |rows| => RequestRow(d, parent, rows[n]))),
             ReturnRequested(parent))
  }

  // ---------- inspect ----------

  predicate Complete(returnLines: seq<ReturnLine>, parent: Id) {
    forall i | 0 <= i < |returnLines| ::
      returnLines[i].parent == parent ==> returnLines[i].received == returnLines[i].requested
  }

  predicate InspectionValid(received: int, normal: int, defective: int) {
    received >= 1 && normal >= 0 && defective >= 0 && normal + defective == received
  }

  function Inspect(d: Db, i: Id, received: int, normal: int, defective: int): Outcome {
    if !InspectionValid(received, normal, defective) then Failed(BadRequest)
    else if i >= |d.returnLines| || d.returnLines[i].parent >= |d.returnRequests| then Failed(NotFound)
    else
      var l := d.returnLines[i];
      if received > l.requested - l.received then Failed(InspectionExceedsReturn)
      else if normal > 0 && UnderCount(d.counts, l.sku) then Failed(SkuUnderCount)
      else
        var l' := l.(received := l.received + received, normal := l.normal + normal,
                     defective := l.defective + defective);
        var lines' := d.returnLines[i := l'];
        var status := if Complete(lines', l.parent) then Inspected else Inspecting;
        Done(d.(balances := if normal > 0 then Arrive(d.balances, l.sku, normal) else d.balances,
                movements := if normal > 0 then d.movements + [Movement(l.sku, Returned, normal)] else d.movements,
                inspections := d.inspections + [Inspection(i, l.shipmentLine, received, normal, defective, None)],
                returnLines := lines',
                returnRequests := d.returnRequests[l.parent := d.returnRequests[l.parent].(status := status)]),
             ReturnInspected(i, status, received, normal, defective))
  }

  // ---------- credit ----------

  /** Some finalized settlement already bills the entry. */
  predicate Billed(d: Db, entry: Id) {
    exists n | 0 <= n < |d.settlementLines| ::
      && d.settlementLines[n].entry == entry
      && d.settlementLines[n].settlement < |d.settlements|
      && d.settlements[d.settlementLines[n].settlement].status == Finalized
  }

  /** The inspected units with the shipment line, entry, order line and return they lead to. */
  predicate Creditable(d: Db, n: Id) {
    && n < |d.inspections|
    && d.inspections[n].returnLine < |d.returnLines|
    && d.returnLines[d.inspections[n].returnLine].parent < |d.returnRequests|
    && d.inspections[n].shipmentLine < |d.shipmentLines|
    && d.shipmentLines[d.inspections[n].shipmentLine].line < |d.lines|
    && d.shipmentLines[d.inspections[n].shipmentLine].entry < |d.entries|
  }

  /** The credit for the next `quantity` units of a shipment line: their price, and the tax that lifts what has
      been taken back to the cumulative share. */
  function NextCredit(d: Db, s: Id, quantity: int): Credit
    requires s < |d.shipmentLines| && d.shipmentLines[s].line < |d.lines| && d.shipmentLines[s].entry < |d.entries|
  {
    var sent := d.shipmentLines[s];
    var share := Taxes.Share(d.entries[sent.entry].tax, Sum(d.inspections, CreditedOn(s)) + quantity, sent.quantity);
    var supply, tax := quantity * d.lines[sent.line].price, share - Sum(d.inspections, CreditedTaxOn(s));
    Credit(quantity, supply, tax, supply + tax)
  }

  function CreditReturn(d: Db, n: Id, quantity: int, today: Date): Outcome {
    if quantity < 1 then Failed(BadRequest)
    else if !Creditable(d, n) then Failed(NotFound)
    else if quantity > d.inspections[n].received then Failed(CreditExceedsInspection)
    else if d.inspections[n].credit.Some? then Failed(AlreadyCredited)
    else
      var s := d.inspections[n].shipmentLine;
      var sent := d.shipmentLines[s];
      var credit := NextCredit(d, s, quantity);
      var date := if Billed(d, sent.entry) then Date(today.month + 1, 1) else today;
      var customer := d.returnRequests[d.returnLines[d.inspections[n].returnLine].parent].customer;
      Done(d.(inspections := d.inspections[n := d.inspections[n].(credit := Some(credit))],
              entries := d.entries + [Entry(customer, OfCredit(n, s), date, quantity, d.lines[sent.line].price,
                                            -credit.supply, -credit.tax, -credit.amount)]),
           ReturnCredited(n, credit))
  }

  // ---------- defects ----------

  function Dispose(d: Db, n: Id, quantity: int, fate: Fate, supplierActive: bool): Outcome {
    if quantity < 1 then Failed(BadRequest)
    else if n >= |d.inspections| then Failed(NotFound)
    else if quantity > d.inspections[n].defective - Sum(d.dispositions, DecidedFor(n)) then
      Failed(DispositionExceedsDefects)
    else if fate == SupplierReturn && !supplierActive then Failed(NotFound)
    else Done(d.(dispositions := d.dispositions + [Disposition(n, quantity, fate)]), DefectDecided(n, quantity, fate))
  }

  function Resolve(d: Db, i: Id, quantity: int, fate: Fate, supplierActive: bool): Outcome {
    if quantity < 1 || fate == Quarantine then Failed(BadRequest)
    else if i >= |d.dispositions| || d.dispositions[i].fate != Quarantine then Failed(NotFound)
    else if quantity > d.dispositions[i].quantity - Sum(d.resolutions, ResolvedFor(i)) then
      Failed(ResolutionExceedsQuarantine)
    else if fate == SupplierReturn && !supplierActive then Failed(NotFound)
    else Done(d.(resolutions := d.resolutions + [Resolution(i, quantity, fate)]),
              DefectResolved(|d.resolutions|, quantity, fate))
  }
}
