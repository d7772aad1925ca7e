/** The shared database the services write, one transaction at a time. */
module Store {
  import opened Wrappers
  import opened Tables

  class Database {
    /** The rows as the running transaction sees them. */
    var tables: Db

    constructor ()
      ensures tables == EMPTY
    {
      tables := EMPTY;
    }

    // ---------- one statement each ----------

    method UpdateBalance(k: Sku, row: Balance)
      modifies this
      ensures tables == old(tables).(balances := old(tables).balances[k := row])
    {
      tables := tables.(balances := tables.balances[k := row]);
    }

    method InsertMovement(row: Movement)
      modifies this
      ensures tables == old(tables).(movements := old(tables).movements + [row])
    {
      tables := tables.(movements := tables.movements + [row]);
    }

    method InsertCount(row: Count)
      modifies this
      ensures tables == old(tables).(counts := old(tables).counts + [row])
    {
      tables := tables.(counts := tables.counts + [row]);
    }

    method UpdateCount(id: Id, row: Count)
      requires id < |tables.counts|
      modifies this
      ensures tables == old(tables).(counts := old(tables).counts[id := row])
    {
      tables := tables.(counts := tables.counts[id := row]);
    }

    method InsertOrder(row: Order)
      modifies this
      ensures tables == old(tables).(orders := old(tables).orders + [row])
    {
      tables := tables.(orders := tables.orders + [row]);
    }

    method UpdateOrder(id: Id, row: Order)
      requires id < |tables.orders|
      modifies this
      ensures tables == old(tables).(orders := old(tables).orders[id := row])
    {
      tables := tables.(orders := tables.orders[id := row]);
    }

    method InsertLine(row: Line)
      modifies this
      ensures tables == old(tables).(lines := old(tables).lines + [row])
    {
      tables := tables.(lines := tables.lines + [row]);
    }

    method UpdateLine(id: Id, row: Line)
      requires id < |tables.lines|
      modifies this
      ensures tables == old(tables).(lines := old(tables).lines[id := row])
    {
      tables := tables.(lines := tables.lines[id := row]);
    }

    method InsertEvent(row: Event)
      modifies this
      ensures tables == old(tables).(events := old(tables).events + [row])
    {
      tables := tables.(events := tables.events + [row]);
    }

    method InsertCancelRequest(row: CancelRequest)
      modifies this
      ensures tables == old(tables).(cancelRequests := old(tables).cancelRequests + [row])
    {
      tables := tables.(cancelRequests := tables.cancelRequests + [row]);
    }

    method UpdateCancelRequest(id: Id, row: CancelRequest)
      requires id < |tables.cancelRequests|
      modifies this
      ensures tables == old(tables).(cancelRequests := old(tables).cancelRequests[id := row])
    {
      tables := tables.(cancelRequests := tables.cancelRequests[id := row]);
    }

    method InsertShipment(row: Shipment)
      modifies this
      ensures tables == old(tables).(shipments := old(tables).shipments + [row])
    {
      tables := tables.(shipments := tables.shipments + [row]);
    }

    method InsertShipmentLine(row: ShipmentLine)
      modifies this
      ensures tables == old(tables).(shipmentLines := old(tables).shipmentLines + [row])
    {
      tables := tables.(shipmentLines := tables.shipmentLines + [row]);
    }

    method InsertReturn(row: Return)
      modifies this
      ensures tables == old(tables).(returnRequests := old(tables).returnRequests + [row])
    {
      tables := tables.(returnRequests := tables.returnRequests + [row]);
    }

    method UpdateReturn(id: Id, row: Return)
      requires id < |tables.returnRequests|
      modifies this
      ensures tables == old(tables).(returnRequests := old(tables).returnRequests[id := row])
    {
      tables := tables.(returnRequests := tables.returnRequests[id := row]);
    }

    method InsertReturnLine(row: ReturnLine)
      modifies this
      ensures tables == old(tables).(returnLines := old(tables).returnLines + [row])
    {
      tables := tables.(returnLines := tables.returnLines + [row]);
    }

    method UpdateReturnLine(id: Id, row: ReturnLine)
      requires id < |tables.returnLines|
      modifies this
      ensures tables == old(tables).(returnLines := old(tables).returnLines[id := row])
    {
      tables := tables.(returnLines := tables.returnLines[id := row]);
    }

    method InsertInspection(row: Inspection)
      modifies this
      ensures tables == old(tables).(inspections := old(tables).inspections + [row])
    {
      tables := tables.(inspections := tables.inspections + [row]);
    }

    method UpdateInspection(id: Id, row: Inspection)
      requires id < |tables.inspections|
      modifies this
      ensures tables == old(tables).(inspections := old(tables).inspections[id := row])
    {
      tables := tables.(inspections := tables.inspections[id := row]);
    }

    method InsertDisposition(row: Disposition)
      modifies this
      ensures tables == old(tables).(dispositions := old(tables).dispositions + [row])
    {
      tables := tables.(dispositions := tables.dispositions + [row]);
    }

    method InsertResolution(row: Resolution)
      modifies this
      ensures tables == old(tables).(resolutions := old(tables).resolutions + [row])
    {
      tables := tables.(resolutions := tables.resolutions + [row]);
    }

    method InsertEntry(row: Entry)
      modifies this
      ensures tables == old(tables).(entries := old(tables).entries + [row])
    {
      tables := tables.(entries := tables.entries + [row]);
    }

    method InsertSettlement(row: Settlement)
      modifies this
      ensures tables == old(tables).(settlements := old(tables).settlements + [row])
    {
      tables := tables.(settlements := tables.settlements + [row]);
    }

    method UpdateSettlement(id: Id, row: Settlement)
      requires id < |tables.settlements|
      modifies this
      ensures tables == old(tables).(settlements := old(tables).settlements[id := row])
    {
      tables := tables.(settlements := tables.settlements[id := row]);
    }

    method InsertSettlementLine(row: SettlementLine)
      modifies this
      ensures tables == old(tables).(settlementLines := old(tables).settlementLines + [row])
    {
      tables := tables.(settlementLines := tables.settlementLines + [row]);
    }

    method InsertPayment(row: Payment)
      modifies this
      ensures tables == old(tables).(payments := old(tables).payments + [row])
    {
      tables := tables.(payments := tables.payments + [row]);
    }

    method UpdatePayment(id: Id, row: Payment)
      requires id < |tables.payments|
      modifies this
      ensures tables == old(tables).(payments := old(tables).payments[id := row])
    {
      tables := tables.(payments := tables.payments[id := row]);
    }

    method InsertAllocation(row: Allocation)
      modifies this
      ensures tables == old(tables).(allocations := old(tables).allocations + [row])
    {
      tables := tables.(allocations := tables.allocations + [row]);
    }

    method UpdateAllocation(id: Id, row: Allocation)
      requires id < |tables.allocations|
      modifies this
      ensures tables == old(tables).(allocations := old(tables).allocations[id := row])
    {
      tables := tables.(allocations := tables.allocations[id := row]);
    }

    method InsertRefund(row: Refund)
      modifies this
      ensures tables == old(tables).(refunds := old(tables).refunds + [row])
    {
      tables := tables.(refunds := tables.refunds + [row]);
    }
  }

  /** A command either replies, having written exactly what it should commit, or throws; what a command that throws has
      written by then is for the transaction around it to undo. */
  predicate Performs(outcome: Outcome, after: Db, answer: Result<Reply, Error>) {
    match outcome
    case Done(db, reply) => after == db && answer == Success(reply)
    case Failed(error) => answer == Failure(error)
  }
}
