/** Receipts and stock corrections as the service runs them. */
module CatalogCommands {
  import opened Wrappers
  import opened Tables
  import opened Store
  import opened CatalogService

  method Adjust(db: Database, k: Sku, delta: int) returns (answer: Result<Reply, Error>)
    modifies db
    ensures Performs(CatalogService.Adjust(old(db.tables), k, delta), db.tables, answer)
  {
    if delta == 0 || k !in db.tables.balances { return Failure(BadRequest); }
    if UnderCount(db.tables.counts, k) { return Failure(SkuUnderCount); }
    var b := db.tables.balances[k];
    var next := b.onHand + delta;
    if next < b.reserved { return Failure(BelowReserved); }
    db.UpdateBalance(k, b.(onHand := next));
    db.InsertMovement(Movement(k, Adjusted, delta));
    return Success(StockAdjusted(delta, Balance(next, b.reserved)));
  }

  method Receive(db: Database, partiesKnown: bool, warehouse: Id, rows: seq<ReceiptRow>)
    returns (answer: Result<Reply, Error>)
    modifies db
    ensures Performs(CatalogService.Receive(old(db.tables), partiesKnown, warehouse, rows), db.tables, answer)
  {
    if rows == [] || !partiesKnown { return Failure(BadRequest); }
    for n := 0 to |rows|
      invariant ReceiveFrom(db.tables, warehouse, rows, n) ==
          CatalogService.Receive(old(db.tables), partiesKnown, warehouse, rows)
    {
      var row := rows[n];
      var k := Sku(warehouse, row.product);
      if row.quantity < 1 { return Failure(BadRequest); }
      if UnderCount(db.tables.counts, k) { return Failure(SkuUnderCount); }
      if Repeated(rows, n) || !row.known { return Failure(BadRequest); }
      var b := if k in db.tables.balances then db.tables.balances[k] else Balance(0, 0);
      db.UpdateBalance(k, b.(onHand := b.onHand + row.quantity));
      db.InsertMovement(Movement(k, Received, row.quantity));
    }
    return Success(StockReceived);
  }
}
