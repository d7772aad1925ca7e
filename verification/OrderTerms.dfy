/** What a customer ordered is what is shipped and charged: the terms of an order never change, over any run. */
module OrderTerms {
  import opened Wrappers
  import opened Tables
  import opened Sums
  import opened Totals
  import opened StockInvariant
  import opened SalesInvariant
  import opened OrderService
  import opened ReservationEffects
  import opened WarehouseEffects
  import opened Commands
  import opened Invariant
  import opened CancellationSafety
  import FalseAlarms
  import StockCountService
  import StockCountGreedy
  import Taxes

  /** Only the status and the worker of an order change, and only what is reserved on a line. */
  ghost predicate TermsKept(d: Db, d': Db) {
    && |d.orders| <= |d'.orders| && |d.lines| <= |d'.lines|
    && (forall o: Id | o < |d.orders| ::
          d'.orders[o] == d.orders[o].(status := d'.orders[o].status, assignee := d'.orders[o].assignee))
    && (forall i: Id | i < |d.lines| :: SameLine(d.lines[i], d'.lines[i]))
    && (forall i: Id | |d.lines| <= i < |d'.lines| :: d'.lines[i].order >= |d.orders|)
  }

  lemma TermsTransitive(d: Db, e: Db, f: Db)
    requires TermsKept(d, e) && TermsKept(e, f)
    ensures TermsKept(d, f)
  {
  }

  lemma PickedKeepTerms(lines: seq<Line>, lines': seq<Line>, picks: seq<Pick>, rewrite: (Line, int) -> Line, i: Id)
    requires PickedLines(lines, lines', picks, 0, rewrite) && i < |lines|
    requires forall quantity :: SameLine(lines[i], rewrite(lines[i], quantity))
    ensures SameLine(lines[i], lines'[i])
  {
    if m: Id :| m < |picks| && picks[m].line == i {
      assert lines'[picks[m].line] == rewrite(lines[picks[m].line], picks[m].quantity);
    }
  }

  lemma ShipKeepsTerms(d: Db, actor: Id, picks: seq<Pick>, today: Date)
    requires StockInv(d) && OrderService.Ship(d, actor, picks, today).Done?
    ensures TermsKept(d, OrderService.Ship(d, actor, picks, today).db)
  {
    ShipExact(d, actor, picks, today);
    forall i: Id | i < |d.lines| ensures SameLine(d.lines[i], OrderService.Ship(d, actor, picks, today).db.lines[i]) {
      PickedKeepTerms(d.lines, OrderService.Ship(d, actor, picks, today).db.lines, picks, AsSent(), i);
    }
  }

  lemma SetWorkKeepsTerms(d: Db, actor: Id, o: Id, stage: Stage, picks: seq<Pick>)
    requires StockInv(d) && OrderService.SetWork(d, actor, o, stage, picks).Done?
    ensures TermsKept(d, OrderService.SetWork(d, actor, o, stage, picks).db)
  {
    SetWorkExact(d, actor, o, stage, picks);
    FalseAlarms.WorkFromOrders(d, o, stage, picks, 0, []);
    forall i: Id | i < |d.lines|
      ensures SameLine(d.lines[i], OrderService.SetWork(d, actor, o, stage, picks).db.lines[i])
    {
      PickedKeepTerms(d.lines, OrderService.SetWork(d, actor, o, stage, picks).db.lines, picks, AsWorked(stage), i);
    }
  }

  lemma ReleaseKeepsTerms(d: Db, o: Id)
    requires StockInv(d) && o < |d.orders| && ReleaseOrder(d, o).Row?
    ensures TermsKept(d, ReleaseOrder(d, o).db)
  {
    ReleaseOrderExact(d, o);
  }

  lemma FinalizeKeepsTerms(d: Db, c: Id, result: int)
    requires StockInv(d) && StockCountService.Finalize(d, c, result).Done?
    ensures TermsKept(d, StockCountService.Finalize(d, c, result).db)
  {
    StockCountGreedy.FinalizeExact(d, c, result);
  }

  lemma ConfirmKeepsTerms(d: Db, o: Id)
    requires StockInv(d) && Confirm(d, o).Done?
    ensures TermsKept(d, Confirm(d, o).db)
  {
    ConfirmExact(d, o);
  }

  lemma AllocateKeepsTerms(d: Db, o: Id)
    requires StockInv(d) && Allocate(d, o).Done?
    ensures TermsKept(d, Allocate(d, o).db)
  {
    AllocateExact(d, o);
  }

  lemma ReviewKeepsTerms(d: Db, q: Id, approve: bool)
    requires StockInv(d) && Review(d, q, approve).Done?
    ensures TermsKept(d, Review(d, q, approve).db)
  {
    if approve {
      ReleaseKeepsTerms(d, d.cancelRequests[q].order);
    }
  }

  lemma RestKeepsTerms(d: Db, actor: Id, op: Op)
    requires Apply(d, actor, op).Done?
    requires op.ClaimWork? || op.ReleaseWork? || op.RequestCancellation? || op.SubmitOrder?
    ensures TermsKept(d, Apply(d, actor, op).db)
  {
  }

  lemma ApplyKeepsTerms(d: Db, actor: Id, op: Op)
    requires StockInv(d) && Apply(d, actor, op).Done?
    ensures TermsKept(d, Apply(d, actor, op).db)
  {
    if op.Ship? {
      ShipKeepsTerms(d, actor, op.picks, op.today);
    } else if op.SetWork? {
      SetWorkKeepsTerms(d, actor, op.order, op.stage, op.picks);
    } else if op.ConfirmOrder? {
      ConfirmKeepsTerms(d, op.order);
    } else if op.AllocateOrder? {
      AllocateKeepsTerms(d, op.order);
    } else if op.CancelOrder? {
      ReleaseKeepsTerms(d, op.order);
    } else if op.ReviewCancellation? {
      ReviewKeepsTerms(d, op.request, op.approve);
    } else if op.FinalizeCount? {
      FinalizeKeepsTerms(d, op.count, op.result);
    } else if op.ClaimWork? || op.ReleaseWork? || op.RequestCancellation? || op.SubmitOrder? {
      RestKeepsTerms(d, actor, op);
    } else {
      OtherOpUntouched(d, actor, op);
    }
  }

  lemma NextKeepsTerms(s: State, call: Call)
    requires StockInv(s.db)
    ensures TermsKept(s.db, Next(s, call).db)
  {
    if !Refused(call.op) && !Stored(s, call) && Apply(s.db, call.actor, call.op).Done? {
      ApplyKeepsTerms(s.db, call.actor, call.op);
    }
  }

  lemma {:induction false} TermsAreFixed(s: State, calls: seq<Call>)
    requires Inv(s.db)
    ensures TermsKept(s.db, Run(s, calls).db)
  {
    if calls != [] {
      var init, last := calls[..|calls| - 1], calls[|calls| - 1];
      TermsAreFixed(s, init);
      RunKeeps(s, init);
      NextKeepsTerms(Run(s, init), last);
      TermsTransitive(s.db, Run(s, init).db, Run(s, calls).db);
    }
  }

  /** The line stands for the item: its product in the order's warehouse, never shipped beyond the quantity asked for,
      and charged to the order's customer at the price and tax offered when the order was submitted. */
  ghost predicate Honoured(d: Db, o: Id, customer: Id, warehouse: Id, i: Id, item: Item) {
    && o < |d.orders| && d.orders[o].customer == customer && d.orders[o].warehouse == warehouse
    && i < |d.lines| && d.lines[i].order == o && d.lines[i].sku == Sku(warehouse, item.product)
    && 0 <= Shipped(d.lines[i]) <= item.quantity
    && item.offer.Some?
    && Sum(d.entries, SupplyOn(i)) == Shipped(d.lines[i]) * item.offer.value.price
    && Sum(d.entries, TaxOn(i)) == Taxes.Target(item.offer.value.tax, Shipped(d.lines[i]) * item.offer.value.price)
    && forall x: Id | x < |d.entries| && d.entries[x].source.OfShipment? && d.entries[x].source.line == i ::
         d.entries[x].customer == customer && d.entries[x].price == item.offer.value.price
  }

  lemma LineHonoured(d: Db, o: Id, i: Id, item: Item)
    requires Inv(d) && i < |d.lines| && d.lines[i].order == o < |d.orders|
    requires item.offer.Some? && d.lines[i].requested == item.quantity
    requires d.lines[i].price == item.offer.value.price && d.lines[i].tax == item.offer.value.tax
    requires d.lines[i].sku == Sku(d.orders[o].warehouse, item.product)
    ensures Honoured(d, o, d.orders[o].customer, d.orders[o].warehouse, i, item)
  {
    assert LineOk(d.orders, d.lines[i]) && ChargedOk(d, i);
    forall x: Id | x < |d.entries| && d.entries[x].source.OfShipment? && d.entries[x].source.line == i
      ensures d.entries[x].customer == d.orders[o].customer && d.entries[x].price == item.offer.value.price
    {
      assert EntryOk(d, x);
    }
  }

  /** The item has its line in a new order. */
  ghost predicate Ordered(d: Db, d': Db, op: Op, n: Id)
    requires op.SubmitOrder? && n < |op.items|
  {
    var i := |d.lines| + n;
    && |d.orders| < |d'.orders| && i < |d'.lines| && op.items[n].offer.Some?
    && d'.orders[|d.orders|].customer == op.customer && d'.orders[|d.orders|].warehouse == op.warehouse
    && d'.lines[i].order == |d.orders| && d'.lines[i].sku == Sku(op.warehouse, op.items[n].product)
    && d'.lines[i].requested == op.items[n].quantity
    && d'.lines[i].price == op.items[n].offer.value.price && d'.lines[i].tax == op.items[n].offer.value.tax
  }

  lemma SubmitOrders(s: State, call: Call, n: Id)
    requires call.op.SubmitOrder? && n < |call.op.items| && !Stored(s, call) && Answer(s, call).Success?
    ensures Answer(s, call) == Success(OrderSubmitted(|s.db.orders|))
    ensures Ordered(s.db, Next(s, call).db, call.op, n)
  {
    assert Next(s, call).db.lines[|s.db.lines| + n] == NewLines(|s.db.orders|, call.op.warehouse, call.op.items)[n];
  }

  lemma OrderedStays(d: Db, d': Db, later: Db, op: Op, n: Id)
    requires op.SubmitOrder? && n < |op.items| && Ordered(d, d', op, n) && TermsKept(d', later) && Inv(later)
    ensures Honoured(later, |d.orders|, op.customer, op.warehouse, |d.lines| + n, op.items[n])
  {
    LineHonoured(later, |d.orders|, |d.lines| + n, op.items[n]);
  }

  /** From the submission of an order on, whatever is confirmed, allocated, cancelled, shipped or counted and in what
      pieces, each item it asked for is honoured on the terms it was submitted with. */
  lemma SubmittedIsHonoured(s: State, call: Call, more: seq<Call>, n: Id)
    requires Inv(s.db) && call.op.SubmitOrder? && n < |call.op.items|
    requires !Stored(s, call) && Answer(s, call).Success?
    ensures Answer(s, call) == Success(OrderSubmitted(|s.db.orders|))
    ensures Honoured(Run(Next(s, call), more).db, |s.db.orders|, call.op.customer, call.op.warehouse,
                     |s.db.lines| + n, call.op.items[n])
  {
    NextKeeps(s, call);
    SubmitOrders(s, call, n);
    RunHonours(s.db, Next(s, call), call.op, more, n);
  }

  lemma RunHonours(d: Db, t: State, op: Op, more: seq<Call>, n: Id)
    requires op.SubmitOrder? && n < |op.items| && Ordered(d, t.db, op, n) && Inv(t.db)
    ensures Honoured(Run(t, more).db, |d.orders|, op.customer, op.warehouse, |d.lines| + n, op.items[n])
  {
    TermsAreFixed(t, more);
    RunKeeps(t, more);
    OrderedStays(d, t.db, Run(t, more).db, op, n);
  }
}
