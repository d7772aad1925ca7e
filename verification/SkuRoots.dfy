/** Which SKUs the tables can come to mention: no command brings up one that neither an order nor a receipt named. */
module SkuRoots {
  import opened Wrappers
  import opened Tables
  import opened StockInvariant
  import opened OrderService
  import opened Commands
  import opened Invariant
  import OrderInvariant
  import WarehouseEffects
  import StockCountService
  import StockCountGreedy
  import CatalogService
  import ReturnService

  /** Every SKU with a balance, on an order line or on a return line is a permitted one. */
  ghost predicate Within(permitted: Sku -> bool, d: Db) {
    && (forall k | k in d.balances :: permitted(k))
    && (forall i: Id | i < |d.lines| :: permitted(d.lines[i].sku))
    && (forall r: Id | r < |d.returnLines| :: permitted(d.returnLines[r].sku))
  }

  /** So is every SKU the command itself names for ordering or receiving. */
  ghost predicate NamesWithin(permitted: Sku -> bool, op: Op) {
    match op
    case SubmitOrder(_, warehouse, _, items, _, _) =>
      (forall n: Id | n < |items| && items[n].offer.Some? :: permitted(Sku(warehouse, items[n].product)))
    case ReceiveStock(partiesKnown, warehouse, receipt) =>
      partiesKnown ==> forall n: Id | n < |receipt| && receipt[n].known :: permitted(Sku(warehouse, receipt[n].product))
    case _ => true
  }

  // ---------- the loops ----------

  lemma {:induction false} ConfirmFromWithin(permitted: Sku -> bool, d: Db, o: Id, i: nat, reserved: int,
                                             unreserved: int)
    requires o < |d.orders| && Within(permitted, d)
    ensures var out := ConfirmFrom(d, o, i, reserved, unreserved); out.Done? ==> Within(permitted, out.db)
    decreases |d.lines| - i
  {
    if i < |d.lines| {
      if d.lines[i].order != o {
        ConfirmFromWithin(permitted, d, o, i + 1, reserved, unreserved);
      } else {
        match ConfirmRow(d, i)
        case Stop(_) =>
        case Row(d', quantity) =>
          ConfirmFromWithin(permitted, d', o, i + 1, reserved + quantity, unreserved + d.lines[i].requested - quantity);
      }
    }
  }

  lemma AllocateWithin(permitted: Sku -> bool, d: Db, o: Id)
    requires Within(permitted, d) && Allocate(d, o).Done?
    ensures Within(permitted, Allocate(d, o).db)
  {
    var kept := (e: Db) => Within(permitted, e);
    OrderInvariant.AllocateFromPreserves(kept, d, o, 0, 0, 0);
  }

  lemma {:induction false} WorkFromWithin(permitted: Sku -> bool, d: Db, o: Id, stage: Stage, picks: seq<Pick>, n: nat,
                                          rows: seq<WorkRow>)
    requires Within(permitted, d)
    ensures var out := WorkFrom(d, o, stage, picks, n, rows); out.Done? ==> Within(permitted, out.db)
    decreases |picks| - n
  {
    if n < |picks| {
      match WorkRowStep(d, o, stage, picks[n])
      case Stop(_) =>
      case Row(d', _) =>
        var l := d'.lines[picks[n].line];
        WorkFromWithin(permitted, d', o, stage, picks, n + 1,
                       rows + [WorkRow(picks[n].line, Picked(l), InspectedOf(l))]);
    }
  }

  lemma ShipRowWithin(permitted: Sku -> bool, d: Db, shipment: Id, pick: Pick, today: Date)
    requires Within(permitted, d) && ShipRow(d, shipment, pick, today).Row?
    ensures Within(permitted, ShipRow(d, shipment, pick, today).db)
  {
  }

  lemma ShipFromWithin(permitted: Sku -> bool, d: Db, shipment: Id, picks: seq<Pick>, today: Date)
    requires Within(permitted, d) && ShipFrom(d, shipment, picks, today, 0, 0).Row?
    ensures Within(permitted, ShipFrom(d, shipment, picks, today, 0, 0).db)
  {
    var kept := (e: Db, m: nat) => Within(permitted, e);
    forall e: Db, m: nat | kept(e, m) && m < |picks|
      ensures OrderInvariant.RowKeeps(kept, {}, e, shipment, picks, today, m)
    {
      if ShipRow(e, shipment, picks[m], today).Row? {
        ShipRowWithin(permitted, e, shipment, picks[m], today);
      }
    }
    OrderInvariant.ShipFromPreserves(kept, {}, d, shipment, picks, today, 0, 0);
  }

  lemma ShipWithin(permitted: Sku -> bool, d: Db, actor: Id, picks: seq<Pick>, today: Date)
    requires Within(permitted, d) && OrderService.Ship(d, actor, picks, today).Done?
    ensures Within(permitted, OrderService.Ship(d, actor, picks, today).db)
  {
    assert Shippable(d, picks[0].line);
    ShipFromWithin(permitted, WarehouseEffects.Started(d, actor, picks), |d.shipments|, picks, today);
  }

  lemma {:induction false} ReleaseFromWithin(permitted: Sku -> bool, d: Db, o: Id, i: nat, freed: int)
    requires Within(permitted, d)
    ensures var row := ReleaseFrom(d, o, i, freed); row.Row? ==> Within(permitted, row.db)
    decreases |d.lines| - i
  {
    if i < |d.lines| {
      if d.lines[i].order != o {
        ReleaseFromWithin(permitted, d, o, i + 1, freed);
      } else {
        match ReleaseRow(d, i)
        case Stop(_) =>
        case Row(d', quantity) => ReleaseFromWithin(permitted, d', o, i + 1, freed + quantity);
      }
    }
  }

  lemma ReleaseOrderWithin(permitted: Sku -> bool, d: Db, o: Id)
    requires Within(permitted, d) && o < |d.orders| && ReleaseOrder(d, o).Row?
    ensures Within(permitted, ReleaseOrder(d, o).db)
  {
    ReleaseFromWithin(permitted, d.(lines := ResetWork(d.lines, o)), o, 0, 0);
  }

  lemma {:induction false} ReceiveFromWithin(permitted: Sku -> bool, d: Db, warehouse: Id, rows: seq<ReceiptRow>,
                                             n: nat)
    requires Within(permitted, d)
    requires forall m: Id | m < |rows| && rows[m].known :: permitted(Sku(warehouse, rows[m].product))
    ensures var out := CatalogService.ReceiveFrom(d, warehouse, rows, n); out.Done? ==> Within(permitted, out.db)
    decreases |rows| - n
  {
    if n < |rows| {
      match CatalogService.ReceiveRow(d, warehouse, rows[n], CatalogService.Repeated(rows, n))
      case Stop(_) =>
      case Row(d', _) => ReceiveFromWithin(permitted, d', warehouse, rows, n + 1);
    }
  }

  lemma FinalizeWithin(permitted: Sku -> bool, d: Db, c: Id, result: int)
    requires StockInv(d) && Within(permitted, d) && StockCountService.Finalize(d, c, result).Done?
    ensures Within(permitted, StockCountService.Finalize(d, c, result).db)
  {
    StockCountGreedy.FinalizeExact(d, c, result);
  }

  // ---------- the commands ----------

  lemma SubmitWithin(permitted: Sku -> bool, d: Db, op: Op)
    requires op.SubmitOrder? && Within(permitted, d) && NamesWithin(permitted, op) && Apply(d, 0, op).Done?
    ensures Within(permitted, Apply(d, 0, op).db)
  {
    var lines' := Apply(d, 0, op).db.lines;
    forall i: Id | i < |lines'| ensures permitted(lines'[i].sku) {
      if i >= |d.lines| {
        var n := i - |d.lines|;
        assert lines'[i] == NewLines(|d.orders|, op.warehouse, op.items)[n];
        assert op.items[n].offer.Some?;
      }
    }
  }

  lemma RequestWithin(permitted: Sku -> bool, d: Db, customer: Id, rows: seq<ReturnRow>)
    requires Within(permitted, d) && ReturnService.Request(d, customer, rows).Done?
    ensures Within(permitted, ReturnService.Request(d, customer, rows).db)
  {
    var lines' := ReturnService.Request(d, customer, rows).db.returnLines;
    forall r: Id | r < |lines'| ensures permitted(lines'[r].sku) {
      if r >= |d.returnLines| {
        var n := r - |d.returnLines|;
        assert ReturnService.ShippedTo(d, rows[n].shipmentLine, customer);
        assert lines'[r] == ReturnService.RequestRow(d, |d.returnRequests|, rows[n]);
      }
    }
  }

  predicate EndsOrder(op: Op) {
    op.CancelOrder? || op.RequestCancellation? || op.ReviewCancellation?
  }

  lemma CancelOpWithin(permitted: Sku -> bool, d: Db, actor: Id, op: Op)
    requires Within(permitted, d) && EndsOrder(op) && Apply(d, actor, op).Done?
    ensures Within(permitted, Apply(d, actor, op).db)
  {
    if op.CancelOrder? {
      ReleaseOrderWithin(permitted, d, op.order);
    } else if op.ReviewCancellation? && op.approve {
      ReleaseOrderWithin(permitted, d, d.cancelRequests[op.request].order);
    }
  }

  lemma OrderOpWithin(permitted: Sku -> bool, d: Db, actor: Id, op: Op)
    requires Within(permitted, d) && NamesWithin(permitted, op) && Apply(d, actor, op).Done?
    requires IsOrderOp(op) && !EndsOrder(op)
    ensures Within(permitted, Apply(d, actor, op).db)
  {
    match op
    case SubmitOrder(_, _, _, _, _, _) => SubmitWithin(permitted, d, op);
    case ConfirmOrder(o) => ConfirmFromWithin(permitted, d, o, 0, 0, 0);
    case AllocateOrder(o) => AllocateWithin(permitted, d, o);
    case ClaimWork(_) =>
    case ReleaseWork(_) =>
    case SetWork(o, stage, picks) => WorkFromWithin(permitted, d, o, stage, picks, 0, []);
    case Ship(picks, today) => ShipWithin(permitted, d, actor, picks, today);
  }

  lemma StockOpWithin(permitted: Sku -> bool, d: Db, actor: Id, op: Op)
    requires StockInv(d) && Within(permitted, d) && NamesWithin(permitted, op) && IsStockOp(op)
    requires Apply(d, actor, op).Done?
    ensures Within(permitted, Apply(d, actor, op).db)
  {
    match op
    case StartCount(_) =>
    case FinalizeCount(c, result) => FinalizeWithin(permitted, d, c, result);
    case CancelCount(_) =>
    case AdjustStock(_, _) =>
    case ReceiveStock(_, warehouse, receipt) => ReceiveFromWithin(permitted, d, warehouse, receipt, 0);
  }

  lemma OtherOpWithin(permitted: Sku -> bool, d: Db, actor: Id, op: Op)
    requires Within(permitted, d) && !IsOrderOp(op) && !IsStockOp(op) && Apply(d, actor, op).Done?
    ensures Within(permitted, Apply(d, actor, op).db)
  {
    if op.RequestReturn? {
      RequestWithin(permitted, d, op.customer, op.rows);
    }
  }

  lemma ApplyWithin(permitted: Sku -> bool, d: Db, actor: Id, op: Op)
    requires StockInv(d) && Within(permitted, d) && NamesWithin(permitted, op) && Apply(d, actor, op).Done?
    ensures Within(permitted, Apply(d, actor, op).db)
  {
    if EndsOrder(op) {
      CancelOpWithin(permitted, d, actor, op);
    } else if IsOrderOp(op) {
      OrderOpWithin(permitted, d, actor, op);
    } else if IsStockOp(op) {
      StockOpWithin(permitted, d, actor, op);
    } else {
      OtherOpWithin(permitted, d, actor, op);
    }
  }
}
