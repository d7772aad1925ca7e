/** The invariant of the whole database, kept by every command and so true after every run. */
module Invariant {
  import opened Wrappers
  import opened Tables
  import opened StockInvariant
  import opened SalesInvariant
  import opened BooksInvariant
  import opened Commands
  import OrderService
  import OrderInvariant
  import StockCountInvariant
  import StockCountService
  import CatalogService
  import ReceivableService
  import SalesProofs
  import ReturnProofs
  import ReturnService
  import Taxes

  ghost predicate Inv(d: Db) {
    StockInv(d) && SalesInv(d) && BooksInv(d)
  }

  lemma EmptyStock()
    ensures StockInv(EMPTY)
  {
    forall k ensures BalanceOk(EMPTY.balances, EMPTY.lines, EMPTY.movements, k) {
    }
    forall i: Id ensures EventOk(EMPTY.events, EMPTY.lines, i) {
    }
  }

  lemma EmptySales()
    ensures SalesInv(EMPTY)
  {
    forall i: Id ensures ChargedOk(EMPTY, i) && AskedOk(EMPTY, i) && TalliedOk(EMPTY, i) && CreditedOk(EMPTY, i) {
    }
    forall k ensures FlowOk(EMPTY, k) {
    }
  }

  lemma EmptyBooks()
    ensures BooksInv(EMPTY)
  {
    forall j: Id
      ensures HeaderOk(EMPTY.settlements, EMPTY.settlementLines, j) && PaidOk(EMPTY, j)
      ensures PaymentOk(EMPTY.payments, EMPTY.allocations, EMPTY.refunds, j)
      ensures RepaidOk(EMPTY.inspections, EMPTY.refunds, j)
    {
    }
  }

  // ---------- quiet commands ----------

  lemma CreditsPositive(d: Db)
    requires InspectionsOk(d)
    ensures forall n: Id | n < |d.inspections| && d.inspections[n].credit.Some? ::
              d.inspections[n].credit.value.amount >= 0
  {
    forall n: Id | n < |d.inspections| && d.inspections[n].credit.Some?
      ensures d.inspections[n].credit.value.amount >= 0
    {
      assert InspectionOk(d, n);
      Taxes.MulLeq(0, d.inspections[n].credit.value.quantity,
                   d.lines[d.shipmentLines[d.inspections[n].shipmentLine].line].price);
    }
  }

  lemma QuietInv(d: Db, d': Db)
    requires Inv(d) && Quiet(d, d') && StockInv(d')
    ensures Inv(d')
  {
    QuietKeeps(d, d');
    CreditsPositive(d);
    KeptKeeps(d, d');
  }

  lemma ConfirmInv(d: Db, o: Id)
    requires Inv(d) && OrderService.Confirm(d, o).Done?
    ensures Inv(OrderService.Confirm(d, o).db)
  {
    OrderInvariant.ConfirmKeeps(d, o);
    SalesProofs.ConfirmQuiet(d, o);
    QuietInv(d, OrderService.Confirm(d, o).db);
  }

  lemma AllocateInv(d: Db, o: Id)
    requires Inv(d) && OrderService.Allocate(d, o).Done?
    ensures Inv(OrderService.Allocate(d, o).db)
  {
    OrderInvariant.AllocateKeeps(d, o);
    SalesProofs.AllocateFromQuiet(d, o, 0, 0, 0);
    QuietInv(d, OrderService.Allocate(d, o).db);
  }

  lemma ClaimInv(d: Db, actor: Id, o: Id)
    requires Inv(d) && OrderService.Claim(d, actor, o).Done?
    ensures Inv(OrderService.Claim(d, actor, o).db)
  {
    OrderInvariant.ClaimKeeps(d, actor, o);
    QuietInv(d, OrderService.Claim(d, actor, o).db);
  }

  lemma ReleaseWorkInv(d: Db, actor: Id, o: Id)
    requires Inv(d) && OrderService.ReleaseWork(d, actor, o).Done?
    ensures Inv(OrderService.ReleaseWork(d, actor, o).db)
  {
    OrderInvariant.ReleaseWorkKeeps(d, actor, o);
    QuietInv(d, OrderService.ReleaseWork(d, actor, o).db);
  }

  lemma SetWorkInv(d: Db, actor: Id, o: Id, stage: Stage, picks: seq<Pick>)
    requires Inv(d) && OrderService.SetWork(d, actor, o, stage, picks).Done?
    ensures Inv(OrderService.SetWork(d, actor, o, stage, picks).db)
  {
    OrderInvariant.SetWorkKeeps(d, actor, o, stage, picks);
    SalesProofs.WorkFromQuiet(d, o, stage, picks, 0, []);
    QuietInv(d, OrderService.SetWork(d, actor, o, stage, picks).db);
  }

  lemma SubmitInv(d: Db, customer: Id, warehouse: Id, partiesActive: bool, items: seq<Item>, createdAt: int, uuid: int)
    requires Inv(d) && OrderService.Submit(d, customer, warehouse, partiesActive, items, createdAt, uuid).Done?
    ensures Inv(OrderService.Submit(d, customer, warehouse, partiesActive, items, createdAt, uuid).db)
  {
    OrderInvariant.SubmitKeeps(d, customer, warehouse, partiesActive, items, createdAt, uuid);
    SalesProofs.SubmitQuiet(d, customer, warehouse, partiesActive, items, createdAt, uuid);
    QuietInv(d, OrderService.Submit(d, customer, warehouse, partiesActive, items, createdAt, uuid).db);
  }

  lemma CancelInv(d: Db, o: Id)
    requires Inv(d) && OrderService.Cancel(d, o).Done?
    ensures Inv(OrderService.Cancel(d, o).db)
  {
    OrderInvariant.CancelKeeps(d, o);
    SalesProofs.CancelQuiet(d, o);
    QuietInv(d, OrderService.Cancel(d, o).db);
  }

  lemma RequestCancellationInv(d: Db, customer: Id, o: Id)
    requires Inv(d) && OrderService.RequestCancellation(d, customer, o).Done?
    ensures Inv(OrderService.RequestCancellation(d, customer, o).db)
  {
    OrderInvariant.RequestCancellationKeeps(d, customer, o);
    SalesProofs.RequestCancellationQuiet(d, customer, o);
    QuietInv(d, OrderService.RequestCancellation(d, customer, o).db);
  }

  lemma ReviewInv(d: Db, q: Id, approve: bool)
    requires Inv(d) && OrderService.Review(d, q, approve).Done?
    ensures Inv(OrderService.Review(d, q, approve).db)
  {
    OrderInvariant.ReviewKeeps(d, q, approve);
    SalesProofs.ReviewQuiet(d, q, approve);
    QuietInv(d, OrderService.Review(d, q, approve).db);
  }

  lemma StartInv(d: Db, k: Sku)
    requires Inv(d) && StockCountService.Start(d, k).Done?
    ensures Inv(StockCountService.Start(d, k).db)
  {
    StockCountInvariant.StartKeeps(d, k);
    QuietInv(d, StockCountService.Start(d, k).db);
  }

  lemma FinalizeInv(d: Db, c: Id, result: int)
    requires Inv(d) && StockCountService.Finalize(d, c, result).Done?
    ensures Inv(StockCountService.Finalize(d, c, result).db)
  {
    StockCountInvariant.FinalizeKeeps(d, c, result);
    SalesProofs.FinalizeQuiet(d, c, result);
    QuietInv(d, StockCountService.Finalize(d, c, result).db);
  }

  lemma CancelCountInv(d: Db, c: Id)
    requires Inv(d) && StockCountService.Cancel(d, c).Done?
    ensures Inv(StockCountService.Cancel(d, c).db)
  {
    StockCountInvariant.CancelKeeps(d, c);
    QuietInv(d, StockCountService.Cancel(d, c).db);
  }

  lemma AdjustInv(d: Db, k: Sku, delta: int)
    requires Inv(d) && CatalogService.Adjust(d, k, delta).Done?
    ensures Inv(CatalogService.Adjust(d, k, delta).db)
  {
    StockCountInvariant.AdjustKeeps(d, k, delta);
    SalesProofs.AdjustQuiet(d, k, delta);
    QuietInv(d, CatalogService.Adjust(d, k, delta).db);
  }

  lemma ReceiveInv(d: Db, partiesKnown: bool, warehouse: Id, rows: seq<ReceiptRow>)
    requires Inv(d) && CatalogService.Receive(d, partiesKnown, warehouse, rows).Done?
    ensures Inv(CatalogService.Receive(d, partiesKnown, warehouse, rows).db)
  {
    StockCountInvariant.ReceiveFromKeeps(d, warehouse, rows, 0);
    SalesProofs.ReceiveFromQuiet(d, warehouse, rows, 0);
    QuietInv(d, CatalogService.Receive(d, partiesKnown, warehouse, rows).db);
  }

  // ---------- shipping ----------

  lemma PrefixTransitive<T>(a: seq<T>, b: seq<T>, c: seq<T>)
    requires |a| <= |b| <= |c| && b[..|a|] == a && c[..|b|] == b
    ensures c[..|a|] == a
  {
    assert c[..|a|] == c[..|b|][..|a|];
  }

  lemma ShipRowExtends(d: Db, shipment: Id, pick: Pick, today: Date)
    ensures var row := OrderService.ShipRow(d, shipment, pick, today);
            row.Row? ==> |d.entries| <= |row.db.entries| && row.db.entries[..|d.entries|] == d.entries
  {
  }

  lemma {:induction false} ShipFromExtends(d: Db, shipment: Id, picks: seq<Pick>, today: Date, n: nat, quantity: int)
    ensures var row := OrderService.ShipFrom(d, shipment, picks, today, n, quantity);
            row.Row? ==> |d.entries| <= |row.db.entries| && row.db.entries[..|d.entries|] == d.entries
    decreases |picks| - n
  {
    if n < |picks| {
      match OrderService.ShipRow(d, shipment, picks[n], today)
      case Stop(_) =>
      case Row(d', moved) =>
        ShipRowExtends(d, shipment, picks[n], today);
        ShipFromExtends(d', shipment, picks, today, n + 1, quantity + moved);
        var row := OrderService.ShipFrom(d', shipment, picks, today, n + 1, quantity + moved);
        if row.Row? {
          PrefixTransitive(d.entries, d'.entries, row.db.entries);
        }
    }
  }

  lemma ShipOpKeeps(d: Db, actor: Id, picks: seq<Pick>, today: Date)
    requires Inv(d) && OrderService.Ship(d, actor, picks, today).Done?
    ensures Inv(OrderService.Ship(d, actor, picks, today).db)
  {
    OrderInvariant.ShipKeeps(d, actor, picks, today);
    SalesProofs.ShipSales(d, actor, picks, today);
    var o, warehouse := d.lines[picks[0].line].order, d.lines[picks[0].line].sku.warehouse;
    var started := OrderService.Assign(d, o, Some(actor)).(shipments := d.shipments + [Shipment(o, warehouse)]);
    ShipFromExtends(started, |d.shipments|, picks, today, 0, 0);
    CreditsPositive(d);
    KeptKeeps(d, OrderService.Ship(d, actor, picks, today).db);
  }

  // ---------- returns ----------

  lemma SameStock(d: Db, d': Db)
    requires StockInv(d)
    requires d'.orders == d.orders && d'.lines == d.lines && d'.balances == d.balances && d'.movements == d.movements
    requires d'.events == d.events && d'.cancelRequests == d.cancelRequests && d'.counts == d.counts
    ensures StockInv(d')
  {
  }

  lemma SameBooks(d: Db, d': Db)
    requires BooksInv(d) && InspectionsOk(d')
    requires |d.entries| <= |d'.entries| && d'.entries[..|d.entries|] == d.entries
    requires |d.inspections| <= |d'.inspections|
    requires forall n: Id | n < |d.inspections| && d.inspections[n].credit.Some? ::
               d'.inspections[n].credit == d.inspections[n].credit
    requires d'.settlements == d.settlements && d'.settlementLines == d.settlementLines
    requires d'.payments == d.payments && d'.allocations == d.allocations && d'.refunds == d.refunds
    ensures BooksInv(d')
  {
    CreditsPositive(d');
    KeptKeeps(d, d');
  }

  lemma RequestReturnKeeps(d: Db, customer: Id, rows: seq<ReturnRow>)
    requires Inv(d) && ReturnService.Request(d, customer, rows).Done?
    ensures Inv(ReturnService.Request(d, customer, rows).db)
  {
    var d' := ReturnService.Request(d, customer, rows).db;
    ReturnProofs.RequestSales(d, customer, rows);
    SameStock(d, d');
    SameBooks(d, d');
  }

  lemma InspectReturnKeeps(d: Db, i: Id, received: int, normal: int, defective: int)
    requires Inv(d) && ReturnService.Inspect(d, i, received, normal, defective).Done?
    ensures Inv(ReturnService.Inspect(d, i, received, normal, defective).db)
  {
    var d' := ReturnService.Inspect(d, i, received, normal, defective).db;
    StockCountInvariant.InspectKeeps(d, i, received, normal, defective);
    ReturnProofs.InspectSales(d, i, received, normal, defective);
    SameBooks(d, d');
  }

  lemma CreditReturnKeeps(d: Db, n: Id, quantity: int, today: Date)
    requires Inv(d) && ReturnService.CreditReturn(d, n, quantity, today).Done?
    ensures Inv(ReturnService.CreditReturn(d, n, quantity, today).db)
  {
    var d' := ReturnService.CreditReturn(d, n, quantity, today).db;
    ReturnProofs.CreditSales(d, n, quantity, today);
    SameStock(d, d');
    SameBooks(d, d');
  }

  lemma DisposeDefectKeeps(d: Db, n: Id, quantity: int, fate: Fate, supplierActive: bool)
    requires Inv(d) && ReturnService.Dispose(d, n, quantity, fate, supplierActive).Done?
    ensures Inv(ReturnService.Dispose(d, n, quantity, fate, supplierActive).db)
  {
    var d' := ReturnService.Dispose(d, n, quantity, fate, supplierActive).db;
    ReturnProofs.DisposeSales(d, n, quantity, fate, supplierActive);
    SameStock(d, d');
    SameBooks(d, d');
  }

  lemma ResolveDefectKeeps(d: Db, i: Id, quantity: int, fate: Fate, supplierActive: bool)
    requires Inv(d) && ReturnService.Resolve(d, i, quantity, fate, supplierActive).Done?
    ensures Inv(ReturnService.Resolve(d, i, quantity, fate, supplierActive).db)
  {
    var d' := ReturnService.Resolve(d, i, quantity, fate, supplierActive).db;
    ReturnProofs.ResolveSales(d, i, quantity, fate, supplierActive);
    SameStock(d, d');
    SameBooks(d, d');
  }

  // ---------- receivables ----------

  lemma SettleKeeps(d: Db, d': Db)
    requires Inv(d) && BooksInv(d')
    requires d' == d.(settlements := d'.settlements, settlementLines := d'.settlementLines,
                      payments := d'.payments, allocations := d'.allocations)
    ensures Inv(d')
  {
    SameStock(d, d');
    ReturnProofs.RefundedPayment(d, d');
  }

  lemma DraftSettlementKeeps(d: Db, customer: Id, month: int, dueDay: Option<DueDay>)
    requires Inv(d) && ReceivableService.DraftSettlement(d, customer, month, dueDay).Done?
    ensures Inv(ReceivableService.DraftSettlement(d, customer, month, dueDay).db)
  {
    forall x: Id | x < |d.entries| ensures d.entries[x].amount == d.entries[x].supply + d.entries[x].tax {
      assert EntryOk(d, x);
    }
    BooksInvariant.DraftKeeps(d, customer, month, dueDay);
    SettleKeeps(d, ReceivableService.DraftSettlement(d, customer, month, dueDay).db);
  }

  lemma RecordRefundKeeps(d: Db, source: RefundSource, amount: int, date: Date, reference: string)
    requires Inv(d) && ReceivableService.RecordRefund(d, source, amount, date, reference).Done?
    ensures Inv(ReceivableService.RecordRefund(d, source, amount, date, reference).db)
  {
    BooksInvariant.RefundKeeps(d, source, amount, date, reference);
    ReturnProofs.RefundSales(d, source, amount, date, reference);
    SameStock(d, ReceivableService.RecordRefund(d, source, amount, date, reference).db);
  }

  lemma FinalizeSettlementKeeps(d: Db, j: Id)
    requires Inv(d) && ReceivableService.FinalizeSettlement(d, j).Done?
    ensures Inv(ReceivableService.FinalizeSettlement(d, j).db)
  {
    BooksInvariant.FinalizeKeeps(d, j);
    SettleKeeps(d, ReceivableService.FinalizeSettlement(d, j).db);
  }

  lemma PayKeeps(d: Db, customer: Id, customerKnown: bool, amount: int)
    requires Inv(d) && ReceivableService.Pay(d, customer, customerKnown, amount).Done?
    ensures Inv(ReceivableService.Pay(d, customer, customerKnown, amount).db)
  {
    BooksInvariant.PayKeeps(d, customer, customerKnown, amount);
    SettleKeeps(d, ReceivableService.Pay(d, customer, customerKnown, amount).db);
  }

  lemma AllocatePaymentKeeps(d: Db, p: Id, j: Id, amount: int)
    requires Inv(d) && ReceivableService.AllocatePayment(d, p, j, amount).Done?
    ensures Inv(ReceivableService.AllocatePayment(d, p, j, amount).db)
  {
    BooksInvariant.AllocateKeeps(d, p, j, amount);
    SettleKeeps(d, ReceivableService.AllocatePayment(d, p, j, amount).db);
  }

  lemma VoidPaymentKeeps(d: Db, p: Id)
    requires Inv(d) && ReceivableService.VoidPayment(d, p).Done?
    ensures Inv(ReceivableService.VoidPayment(d, p).db)
  {
    BooksInvariant.VoidKeeps(d, p);
    SettleKeeps(d, ReceivableService.VoidPayment(d, p).db);
  }

  // ---------- every command, every run ----------

  predicate IsOrderOp(op: Op) {
    op.SubmitOrder? || op.ConfirmOrder? || op.AllocateOrder? || op.ClaimWork? || op.ReleaseWork? || op.SetWork?
    || op.Ship? || op.CancelOrder? || op.RequestCancellation? || op.ReviewCancellation?
  }

  predicate IsStockOp(op: Op) {
    op.StartCount? || op.FinalizeCount? || op.CancelCount? || op.AdjustStock? || op.ReceiveStock?
  }

  predicate IsReturnOp(op: Op) {
    op.RequestReturn? || op.InspectReturn? || op.CreditReturn? || op.DisposeDefect? || op.ResolveDefect?
  }

  lemma OrderOpKeeps(d: Db, actor: Id, op: Op)
    requires Inv(d) && Apply(d, actor, op).Done? && IsOrderOp(op)
    ensures Inv(Apply(d, actor, op).db)
  {
    match op
    case SubmitOrder(customer, warehouse, active, items, createdAt, uuid) =>
      SubmitInv(d, customer, warehouse, active, items, createdAt, uuid);
    case ConfirmOrder(o) => ConfirmInv(d, o);
    case AllocateOrder(o) => AllocateInv(d, o);
    case ClaimWork(o) => ClaimInv(d, actor, o);
    case ReleaseWork(o) => ReleaseWorkInv(d, actor, o);
    case SetWork(o, stage, picks) => SetWorkInv(d, actor, o, stage, picks);
    case Ship(picks, today) => ShipOpKeeps(d, actor, picks, today);
    case CancelOrder(o) => CancelInv(d, o);
    case RequestCancellation(customer, o) => RequestCancellationInv(d, customer, o);
    case ReviewCancellation(q, approve) => ReviewInv(d, q, approve);
  }

  lemma StockOpKeeps(d: Db, actor: Id, op: Op)
    requires Inv(d) && Apply(d, actor, op).Done? && IsStockOp(op)
    ensures Inv(Apply(d, actor, op).db)
  {
    match op
    case StartCount(k) => StartInv(d, k);
    case FinalizeCount(c, result) => FinalizeInv(d, c, result);
    case CancelCount(c) => CancelCountInv(d, c);
    case AdjustStock(k, delta) => AdjustInv(d, k, delta);
    case ReceiveStock(partiesKnown, warehouse, rows) => ReceiveInv(d, partiesKnown, warehouse, rows);
  }

  lemma ReturnOpKeeps(d: Db, actor: Id, op: Op)
    requires Inv(d) && Apply(d, actor, op).Done? && IsReturnOp(op)
    ensures Inv(Apply(d, actor, op).db)
  {
    match op
    case RequestReturn(customer, rows) => RequestReturnKeeps(d, customer, rows);
    case InspectReturn(i, received, normal, defective) => InspectReturnKeeps(d, i, received, normal, defective);
    case CreditReturn(n, quantity, today) => CreditReturnKeeps(d, n, quantity, today);
    case DisposeDefect(n, quantity, fate, active) => DisposeDefectKeeps(d, n, quantity, fate, active);
    case ResolveDefect(i, quantity, fate, active) => ResolveDefectKeeps(d, i, quantity, fate, active);
  }

  lemma MoneyOpKeeps(d: Db, actor: Id, op: Op)
    requires Inv(d) && Apply(d, actor, op).Done? && !IsOrderOp(op) && !IsStockOp(op) && !IsReturnOp(op)
    ensures Inv(Apply(d, actor, op).db)
  {
    match op
    case DraftSettlement(customer, month, active) => DraftSettlementKeeps(d, customer, month, active);
    case FinalizeSettlement(j) => FinalizeSettlementKeeps(d, j);
    case RecordPayment(customer, customerKnown, amount) => PayKeeps(d, customer, customerKnown, amount);
    case AllocatePayment(p, j, amount) => AllocatePaymentKeeps(d, p, j, amount);
    case RecordRefund(source, amount, date, reference) => RecordRefundKeeps(d, source, amount, date, reference);
    case VoidPayment(p) => VoidPaymentKeeps(d, p);
  }

  lemma ApplyKeeps(d: Db, actor: Id, op: Op)
    requires Inv(d)
    ensures Apply(d, actor, op).Done? ==> Inv(Apply(d, actor, op).db)
  {
    if Apply(d, actor, op).Done? {
      if IsOrderOp(op) {
        OrderOpKeeps(d, actor, op);
      } else if IsStockOp(op) {
        StockOpKeeps(d, actor, op);
      } else if IsReturnOp(op) {
        ReturnOpKeeps(d, actor, op);
      } else {
        MoneyOpKeeps(d, actor, op);
      }
    }
  }

  lemma NextKeeps(s: State, call: Call)
    requires Inv(s.db)
    ensures Inv(Next(s, call).db)
  {
    ApplyKeeps(s.db, call.actor, call.op);
  }

  lemma {:induction false} RunKeeps(s: State, calls: seq<Call>)
    requires Inv(s.db)
    ensures Inv(Run(s, calls).db)
  {
    if calls != [] {
      RunKeeps(s, calls[..|calls| - 1]);
      NextKeeps(Run(s, calls[..|calls| - 1]), calls[|calls| - 1]);
    }
  }

  /** From an empty database, no run of commands can break the invariant. */
  lemma ReachableInv(calls: seq<Call>)
    ensures Inv(Run(START, calls).db)
  {
    EmptyStock();
    EmptySales();
    EmptyBooks();
    RunKeeps(START, calls);
  }
}
