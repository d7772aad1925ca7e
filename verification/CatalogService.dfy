/** Stock coming in and stock corrections. */
module CatalogService {
  import opened Tables

  function Adjust(d: Db, k: Sku, delta: int): Outcome {
    if delta == 0 then Failed(BadRequest)
    else if k !in d.balances then Failed(BadRequest)
    else if UnderCount(d.counts, k) then Failed(SkuUnderCount)
    else
      var next := d.balances[k].onHand + delta;
      if next < d.balances[k].reserved then Failed(BelowReserved)
      else
        Done(d.(balances := d.balances[k := d.balances[k].(onHand := next)],
                movements := d.movements + [Movement(k, Adjusted, delta)]),
             StockAdjusted(delta, Balance(next, d.balances[k].reserved)))
  }

  /** Add units to a balance, creating it when it is missing. */
  function Arrive(balances: map<Sku, Balance>, k: Sku, quantity: int): map<Sku, Balance> {
    balances[k := Balance(BalanceOf(balances, k).onHand + quantity, BalanceOf(balances, k).reserved)]
  }

  /** One receipt line. A product already on the receipt violates the receipt's UNIQUE constraint and an unknown
      one its foreign key; the service reports both as a bad request. */
  function ReceiveRow(d: Db, warehouse: Id, row: ReceiptRow, repeated: bool): Row {
    var k := Sku(warehouse, row.product);
    if row.quantity < 1 then Stop(BadRequest)
    else if UnderCount(d.counts, k) then Stop(SkuUnderCount)
    else if repeated || !row.known then Stop(BadRequest)
    else
      Row(d.(balances := Arrive(d.balances, k, row.quantity),
             movements := d.movements + [Movement(k, Received, row.quantity)]),
          row.quantity)
  }

  predicate Repeated(rows: seq<ReceiptRow>, n: nat)
    requires n < |rows|
  {
    exists m | 0 <= m < n :: rows[m].product == rows[n].product
  }

  function ReceiveFrom(d: Db, warehouse: Id, rows: seq<ReceiptRow>, n: nat): (out: Outcome)
    ensures out.Failed? ==> out.error in {BadRequest, SkuUnderCount}
    decreases |rows| - n
  {
    if n >= |rows| then Done(d, StockReceived)
    else
      match ReceiveRow(d, warehouse, rows[n], Repeated(rows, n))
      case Stop(error) => Failed(error)
      case Row(d', _) => ReceiveFrom(d', warehouse, rows, n + 1)
  }

  function Receive(d: Db, partiesKnown: bool, warehouse: Id, rows: seq<ReceiptRow>): Outcome {
    if rows == [] || !partiesKnown then Failed(BadRequest)
    else ReceiveFrom(d, warehouse, rows, 0)
  }
}
