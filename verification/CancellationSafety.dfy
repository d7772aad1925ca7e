/** Cancelling is safe: nothing ships while a cancellation is under review, and a cancelled order is never touched
    again. */
module CancellationSafety {
  import opened Wrappers
  import opened Tables
  import opened StockInvariant
  import opened OrderService
  import opened Commands
  import opened Invariant
  import StockCountService
  import CatalogService
  import SalesInvariant
  import SalesProofs

  // ---------- an order command touches its own order only ----------

  /** Every other order, with its lines, is as before; new lines belong to new orders. */
  ghost predicate TouchesOnly(d: Db, d': Db, o: Id) {
    && |d.orders| <= |d'.orders| && |d.lines| <= |d'.lines|
    && (forall p: Id | p < |d.orders| && p != o :: d'.orders[p] == d.orders[p])
    && (forall i: Id | i < |d.lines| :: d'.lines[i].order == d.lines[i].order)
    && (forall i: Id | i < |d.lines| && d.lines[i].order != o :: d'.lines[i] == d.lines[i])
    && (forall i: Id | |d.lines| <= i < |d'.lines| :: d'.lines[i].order >= |d.orders|)
  }

  /** The order and its lines are as before, and it has no new lines. */
  ghost predicate TouchesNot(d: Db, d': Db, o: Id) {
    && o < |d.orders| <= |d'.orders| && d'.orders[o] == d.orders[o]
    && |d.lines| <= |d'.lines|
    && (forall i: Id | i < |d.lines| :: d'.lines[i].order == d.lines[i].order)
    && (forall i: Id | i < |d.lines| && d.lines[i].order == o :: d'.lines[i] == d.lines[i])
    && (forall i: Id | |d.lines| <= i < |d'.lines| :: d'.lines[i].order != o)
  }

  lemma TouchesTransitive(d: Db, e: Db, f: Db, o: Id)
    requires TouchesOnly(d, e, o) && TouchesOnly(e, f, o)
    ensures TouchesOnly(d, f, o)
  {
  }

  lemma ConfirmRowTouches(d: Db, i: Id)
    requires i < |d.lines| && ConfirmRow(d, i).Row?
    ensures TouchesOnly(d, ConfirmRow(d, i).db, d.lines[i].order)
    ensures ConfirmRow(d, i).db.cancelRequests == d.cancelRequests
  {
  }

  lemma AllocateRowTouches(d: Db, i: Id)
    requires i < |d.lines| && AllocateRow(d, i).Row?
    ensures TouchesOnly(d, AllocateRow(d, i).db, d.lines[i].order)
    ensures AllocateRow(d, i).db.cancelRequests == d.cancelRequests
  {
  }

  /** The database went on to touch the order only, and no request. */
  ghost predicate WentOn(d: Db, out: Outcome, o: Id) {
    out.Done? ==> TouchesOnly(d, out.db, o) && out.db.cancelRequests == d.cancelRequests
  }

  lemma WentOnTransitive(d: Db, e: Db, out: Outcome, o: Id)
    requires TouchesOnly(d, e, o) && e.cancelRequests == d.cancelRequests && WentOn(e, out, o)
    ensures WentOn(d, out, o)
  {
    if out.Done? {
      TouchesTransitive(d, e, out.db, o);
    }
  }

  lemma ConfirmEndTouches(d: Db, o: Id, i: nat, reserved: int, unreserved: int)
    requires o < |d.orders| && i >= |d.lines|
    ensures WentOn(d, ConfirmFrom(d, o, i, reserved, unreserved), o)
  {
  }

  lemma {:induction false} ConfirmFromTouches(d: Db, o: Id, i: nat, reserved: int, unreserved: int)
    requires o < |d.orders|
    ensures WentOn(d, ConfirmFrom(d, o, i, reserved, unreserved), o)
    decreases |d.lines| - i
  {
    if i >= |d.lines| {
      ConfirmEndTouches(d, o, i, reserved, unreserved);
    } else if d.lines[i].order != o {
      ConfirmFromTouches(d, o, i + 1, reserved, unreserved);
    } else {
      match ConfirmRow(d, i)
      case Stop(_) =>
      case Row(d', quantity) =>
        ConfirmRowTouches(d, i);
        var missing := unreserved + d.lines[i].requested - quantity;
        ConfirmFromTouches(d', o, i + 1, reserved + quantity, missing);
        WentOnTransitive(d, d', ConfirmFrom(d', o, i + 1, reserved + quantity, missing), o);
    }
  }

  lemma {:induction false} AllocateFromTouches(d: Db, o: Id, i: nat, added: int, waiting: int)
    ensures WentOn(d, AllocateFrom(d, o, i, added, waiting), o)
    decreases |d.lines| - i
  {
    if i < |d.lines| {
      if d.lines[i].order != o {
        AllocateFromTouches(d, o, i + 1, added, waiting);
      } else {
        match AllocateRow(d, i)
        case Stop(_) =>
        case Row(d', quantity) =>
          AllocateRowTouches(d, i);
          var missing := waiting + Waiting(d.lines[i]) - quantity;
          AllocateFromTouches(d', o, i + 1, added + quantity, missing);
          WentOnTransitive(d, d', AllocateFrom(d', o, i + 1, added + quantity, missing), o);
      }
    }
  }

  lemma {:induction false} WorkFromTouches(d: Db, o: Id, stage: Stage, picks: seq<Pick>, n: nat, rows: seq<WorkRow>)
    ensures var out := WorkFrom(d, o, stage, picks, n, rows);
            out.Done? ==> TouchesOnly(d, out.db, o) && out.db.cancelRequests == d.cancelRequests
    decreases |picks| - n
  {
    if n < |picks| {
      match WorkRowStep(d, o, stage, picks[n])
      case Stop(_) =>
      case Row(d', _) =>
        var l := d'.lines[picks[n].line];
        WorkFromTouches(d', o, stage, picks, n + 1, rows + [WorkRow(picks[n].line, Picked(l), InspectedOf(l))]);
    }
  }

  lemma {:induction false} ShipFromTouches(d: Db, shipment: Id, picks: seq<Pick>, today: Date, n: nat, quantity: int,
                                           o: Id)
    requires forall m | 0 <= m < |picks| :: picks[m].line < |d.lines| && d.lines[picks[m].line].order == o
    ensures var row := ShipFrom(d, shipment, picks, today, n, quantity);
            row.Row? ==> TouchesOnly(d, row.db, o) && row.db.cancelRequests == d.cancelRequests
    decreases |picks| - n
  {
    if n < |picks| {
      match ShipRow(d, shipment, picks[n], today)
      case Stop(_) =>
      case Row(d', moved) =>
        ShipFromTouches(d', shipment, picks, today, n + 1, quantity + moved, o);
    }
  }

  lemma {:induction false} ReleaseFromTouches(d: Db, o: Id, i: nat, freed: int)
    ensures var row := ReleaseFrom(d, o, i, freed);
            row.Row? ==> TouchesOnly(d, row.db, o) && row.db.cancelRequests == d.cancelRequests
    decreases |d.lines| - i
  {
    if i < |d.lines| {
      if d.lines[i].order != o {
        ReleaseFromTouches(d, o, i + 1, freed);
      } else {
        match ReleaseRow(d, i)
        case Stop(_) =>
        case Row(d', quantity) => ReleaseFromTouches(d', o, i + 1, freed + quantity);
      }
    }
  }

  lemma ReleaseOrderTouches(d: Db, o: Id)
    requires o < |d.orders|
    ensures var row := ReleaseOrder(d, o);
            row.Row? ==> TouchesOnly(d, row.db, o) && row.db.cancelRequests == d.cancelRequests
  {
    ReleaseFromTouches(d.(lines := ResetWork(d.lines, o)), o, 0, 0);
  }

  lemma ShipTouches(d: Db, actor: Id, picks: seq<Pick>, today: Date)
    requires OrderService.Ship(d, actor, picks, today).Done?
    ensures Shippable(d, picks[0].line)
    ensures TouchesOnly(d, OrderService.Ship(d, actor, picks, today).db, d.lines[picks[0].line].order)
    ensures OrderService.Ship(d, actor, picks, today).db.cancelRequests == d.cancelRequests
  {
    assert Shippable(d, picks[0].line);
    var o, warehouse := d.lines[picks[0].line].order, d.lines[picks[0].line].sku.warehouse;
    var started := Assign(d, o, Some(actor)).(shipments := d.shipments + [Shipment(o, warehouse)]);
    forall m | 0 <= m < |picks| ensures picks[m].line < |d.lines| && d.lines[picks[m].line].order == o {
      assert Shippable(d, picks[m].line);
    }
    ShipFromTouches(started, |d.shipments|, picks, today, 0, 0, o);
  }

  /** The order a command is about, if it is about one. */
  function About(d: Db, op: Op): Option<Id> {
    match op
    case ConfirmOrder(o) => Some(o)
    case AllocateOrder(o) => Some(o)
    case ClaimWork(o) => Some(o)
    case ReleaseWork(o) => Some(o)
    case SetWork(o, _, _) => Some(o)
    case Ship(picks, _) =>
      Some(if picks != [] && picks[0].line < |d.lines| then d.lines[picks[0].line].order else |d.orders|)
    case CancelOrder(o) => Some(o)
    case RequestCancellation(_, o) => Some(o)
    case ReviewCancellation(q, _) => if q < |d.cancelRequests| then Some(d.cancelRequests[q].order) else None
    case _ => None
  }

  /** Nothing but the order and its lines, and only requests of a cancellation command. */
  ghost predicate TouchesOwn(d: Db, op: Op, d': Db) {
    About(d, op).Some? ==>
      && TouchesOnly(d, d', About(d, op).value)
      && (op.RequestCancellation? || op.ReviewCancellation? || d'.cancelRequests == d.cancelRequests)
  }

  lemma WorkOpTouches(d: Db, actor: Id, op: Op)
    requires Apply(d, actor, op).Done?
    requires op.ConfirmOrder? || op.AllocateOrder? || op.ClaimWork? || op.ReleaseWork? || op.SetWork?
    ensures TouchesOwn(d, op, Apply(d, actor, op).db)
  {
    match op {
      case ConfirmOrder(o) => ConfirmFromTouches(d, o, 0, 0, 0);
      case AllocateOrder(o) => AllocateFromTouches(d, o, 0, 0, 0);
      case ClaimWork(_) =>
      case ReleaseWork(_) =>
      case SetWork(o, stage, picks) => WorkFromTouches(d, o, stage, picks, 0, []);
    }
  }

  lemma CancelOpTouches(d: Db, actor: Id, op: Op)
    requires Apply(d, actor, op).Done?
    requires op.Ship? || op.CancelOrder? || op.RequestCancellation? || op.ReviewCancellation?
    ensures TouchesOwn(d, op, Apply(d, actor, op).db)
  {
    match op {
      case Ship(picks, today) => ShipTouches(d, actor, picks, today);
      case CancelOrder(o) => ReleaseOrderTouches(d, o);
      case RequestCancellation(_, _) =>
      case ReviewCancellation(q, _) => ReleaseOrderTouches(d, d.cancelRequests[q].order);
    }
  }

  lemma OrderOpTouches(d: Db, actor: Id, op: Op)
    requires Apply(d, actor, op).Done? && About(d, op).Some?
    ensures TouchesOnly(d, Apply(d, actor, op).db, About(d, op).value)
    ensures op.RequestCancellation? || op.ReviewCancellation? ||
            Apply(d, actor, op).db.cancelRequests == d.cancelRequests
  {
    if op.Ship? || op.CancelOrder? || op.RequestCancellation? || op.ReviewCancellation? {
      CancelOpTouches(d, actor, op);
    } else {
      WorkOpTouches(d, actor, op);
    }
  }

  // ---------- commands that are refused ----------

  lemma CancelledHoldsNothing(d: Db, o: Id)
    requires StockInv(d) && o < |d.orders| && d.orders[o].status == Cancelled
    ensures forall i: Id | i < |d.lines| && d.lines[i].order == o :: !IsActive(d.lines[i])
  {
    forall i: Id | i < |d.lines| && d.lines[i].order == o ensures !IsActive(d.lines[i]) {
      assert LineOk(d.orders, d.lines[i]);
    }
  }

  /** Every command about a cancelled order is refused. */
  lemma CancelledRefuses(d: Db, actor: Id, op: Op, o: Id)
    requires StockInv(d) && o < |d.orders| && d.orders[o].status == Cancelled && About(d, op) == Some(o)
    ensures Apply(d, actor, op).Failed?
  {
    CancelledHoldsNothing(d, o);
    match op {
      case ConfirmOrder(_) =>
      case AllocateOrder(_) =>
      case ClaimWork(_) =>
      case ReleaseWork(_) =>
      case SetWork(_, _, _) =>
      case Ship(_, _) =>
      case CancelOrder(_) =>
      case RequestCancellation(_, _) =>
      case ReviewCancellation(_, _) =>
    }
  }

  /** While a cancellation is under review, everything but that review is refused. */
  lemma PendingRefuses(d: Db, actor: Id, op: Op, q: Id)
    requires StockInv(d) && q < |d.cancelRequests| && d.cancelRequests[q].status == Pending
    requires About(d, op) == Some(d.cancelRequests[q].order) && !(op.ReviewCancellation? && op.request == q)
    ensures Apply(d, actor, op).Failed?
  {
    assert HasPending(d.cancelRequests, d.cancelRequests[q].order);
    match op {
      case ConfirmOrder(_) =>
      case AllocateOrder(_) =>
      case ClaimWork(_) =>
      case ReleaseWork(_) =>
      case SetWork(_, _, _) =>
      case Ship(_, _) =>
      case CancelOrder(_) =>
      case RequestCancellation(_, _) =>
      case ReviewCancellation(_, _) =>
    }
  }

  // ---------- the other commands ----------

  lemma {:induction false} ReceiveFromKeepsOrders(d: Db, warehouse: Id, rows: seq<ReceiptRow>, n: nat)
    ensures var out := CatalogService.ReceiveFrom(d, warehouse, rows, n);
            out.Done? ==> out.db == d.(balances := out.db.balances, movements := out.db.movements)
    decreases |rows| - n
  {
    if n < |rows| {
      match CatalogService.ReceiveRow(d, warehouse, rows[n], CatalogService.Repeated(rows, n))
      case Stop(_) =>
      case Row(d', _) => ReceiveFromKeepsOrders(d', warehouse, rows, n + 1);
    }
  }

  lemma {:induction false} CutFromTouchesNot(d: Db, plan: seq<Id>, n: nat, shortage: int, o: Id)
    requires o < |d.orders|
    requires forall m | 0 <= m < |plan| :: plan[m] < |d.lines| && d.lines[plan[m]].order != o
    ensures TouchesNot(d, StockCountService.CutFrom(d, plan, n, shortage).db, o)
    decreases |plan| - n
  {
    if n < |plan| && shortage != 0 {
      if d.lines[plan[n]].reservation.None? {
        CutFromTouchesNot(d, plan, n + 1, shortage, o);
      } else {
        var r := d.lines[plan[n]].reservation.value;
        var quantity := Min(shortage, r.quantity - r.shipped);
        CutFromTouchesNot(StockCountService.CutRow(d, plan[n], quantity), plan, n + 1, shortage - quantity, o);
      }
    }
  }

  /** A count takes units from active reservations only, and a cancelled order has none. */
  lemma FinalizeSparesCancelled(d: Db, c: Id, result: int, o: Id)
    requires StockInv(d) && o < |d.orders| && d.orders[o].status == Cancelled
    requires StockCountService.Finalize(d, c, result).Done?
    ensures TouchesNot(d, StockCountService.Finalize(d, c, result).db, o)
  {
    var k := d.counts[c].sku;
    var plan := StockCountService.NewestFirst(d, k, |d.lines|);
    forall m | 0 <= m < |plan| ensures plan[m] < |d.lines| && d.lines[plan[m]].order != o {
      assert StockCountService.Candidate(d, k, plan[m]);
      assert LineOk(d.orders, d.lines[plan[m]]);
    }
    CutFromTouchesNot(d, plan, 0, Max(0, d.balances[k].reserved - result), o);
  }

  ghost predicate OrdersUntouched(d: Db, d': Db) {
    d'.orders == d.orders && d'.lines == d.lines && d'.cancelRequests == d.cancelRequests
  }

  lemma StockOpUntouched(d: Db, actor: Id, op: Op)
    requires Apply(d, actor, op).Done? && IsStockOp(op) && !op.FinalizeCount?
    ensures OrdersUntouched(d, Apply(d, actor, op).db)
  {
    if op.ReceiveStock? {
      ReceiveFromKeepsOrders(d, op.warehouse, op.receipt, 0);
    }
  }

  lemma ReturnOpUntouched(d: Db, actor: Id, op: Op)
    requires Apply(d, actor, op).Done? && IsReturnOp(op)
    ensures OrdersUntouched(d, Apply(d, actor, op).db)
  {
  }

  lemma MoneyOpUntouched(d: Db, actor: Id, op: Op)
    requires Apply(d, actor, op).Done? && !IsOrderOp(op) && !IsStockOp(op) && !IsReturnOp(op)
    ensures OrdersUntouched(d, Apply(d, actor, op).db)
  {
  }

  lemma UntouchedIsTouchesNot(d: Db, d': Db, o: Id)
    requires OrdersUntouched(d, d') && o < |d.orders|
    ensures TouchesNot(d, d', o)
  {
  }

  /** Commands that are about no order and are not the end of a count leave every order alone. */
  lemma OtherOpUntouched(d: Db, actor: Id, op: Op)
    requires Apply(d, actor, op).Done? && About(d, op).None? && !op.FinalizeCount? && !op.SubmitOrder?
    ensures OrdersUntouched(d, Apply(d, actor, op).db)
  {
    if IsStockOp(op) {
      StockOpUntouched(d, actor, op);
    } else if IsReturnOp(op) {
      ReturnOpUntouched(d, actor, op);
    } else {
      MoneyOpUntouched(d, actor, op);
    }
  }

  lemma SubmitTouchesNot(d: Db, actor: Id, op: Op, o: Id)
    requires op.SubmitOrder? && o < |d.orders| && Apply(d, actor, op).Done?
    ensures TouchesNot(d, Apply(d, actor, op).db, o) && Apply(d, actor, op).db.cancelRequests == d.cancelRequests
  {
  }

  lemma OtherOpTouchesNot(d: Db, actor: Id, op: Op, o: Id)
    requires o < |d.orders| && Apply(d, actor, op).Done? && About(d, op).None? && !op.FinalizeCount?
    ensures TouchesNot(d, Apply(d, actor, op).db, o) && Apply(d, actor, op).db.cancelRequests == d.cancelRequests
  {
    if op.SubmitOrder? {
      SubmitTouchesNot(d, actor, op, o);
    } else {
      OtherOpUntouched(d, actor, op);
      UntouchedIsTouchesNot(d, Apply(d, actor, op).db, o);
    }
  }

  // ---------- cancelled for good ----------

  lemma CancelledStays(d: Db, actor: Id, op: Op, o: Id)
    requires StockInv(d) && o < |d.orders| && d.orders[o].status == Cancelled && Apply(d, actor, op).Done?
    ensures TouchesNot(d, Apply(d, actor, op).db, o)
  {
    if About(d, op) == Some(o) {
      CancelledRefuses(d, actor, op, o);
    } else if About(d, op).Some? {
      OrderOpTouches(d, actor, op);
    } else if op.FinalizeCount? {
      FinalizeSparesCancelled(d, op.count, op.result, o);
    } else {
      OtherOpTouchesNot(d, actor, op, o);
    }
  }

  lemma NextKeepsCancelled(s: State, call: Call, o: Id)
    requires StockInv(s.db) && o < |s.db.orders| && s.db.orders[o].status == Cancelled
    ensures TouchesNot(s.db, Next(s, call).db, o)
  {
    if Apply(s.db, call.actor, call.op).Done? {
      CancelledStays(s.db, call.actor, call.op, o);
    }
  }

  lemma {:induction false} RunKeepsCancelled(s: State, calls: seq<Call>, o: Id)
    requires Inv(s.db) && o < |s.db.orders| && s.db.orders[o].status == Cancelled
    ensures TouchesNot(s.db, Run(s, calls).db, o)
  {
    if calls != [] {
      var init := calls[..|calls| - 1];
      RunKeepsCancelled(s, init, o);
      RunKeeps(s, init);
      NextKeepsCancelled(Run(s, init), calls[|calls| - 1], o);
    }
  }

  /** Once an order is cancelled it holds no reservation, and neither it nor any of its lines ever changes again. */
  lemma CancelledForGood(calls: seq<Call>, more: seq<Call>, o: Id)
    requires o < |Run(START, calls).db.orders| && Run(START, calls).db.orders[o].status == Cancelled
    ensures var d, d' := Run(START, calls).db, Run(START, calls + more).db;
            && TouchesNot(d, d', o)
            && forall i: Id | i < |d'.lines| && d'.lines[i].order == o :: !IsActive(d'.lines[i])
  {
    ReachableInv(calls);
    ReachableInv(calls + more);
    RunConcat(START, calls, more);
    RunKeepsCancelled(Run(START, calls), more, o);
    CancelledHoldsNothing(Run(START, calls + more).db, o);
  }

  // ---------- nothing ships under review ----------

  /** The request is still open, its order is as before, and no line of it has shipped anything since. */
  ghost predicate UnderReview(d: Db, d': Db, q: Id)
    requires q < |d.cancelRequests|
  {
    var o := d.cancelRequests[q].order;
    && q < |d'.cancelRequests| && d'.cancelRequests[q] == d.cancelRequests[q]
    && o < |d.orders| <= |d'.orders| && d'.orders[o] == d.orders[o]
    && |d.lines| <= |d'.lines|
    && (forall i: Id | i < |d.lines| :: d'.lines[i].order == d.lines[i].order)
    && (forall i: Id | i < |d.lines| && d.lines[i].order == o :: Shipped(d'.lines[i]) == Shipped(d.lines[i]))
    && (forall i: Id | |d.lines| <= i < |d'.lines| :: d'.lines[i].order != o)
  }

  predicate Reviews(op: Op, q: Id) {
    op.ReviewCancellation? && op.request == q
  }

  lemma FinalizeKeepsReview(d: Db, c: Id, result: int, q: Id)
    requires StockInv(d) && q < |d.cancelRequests| && d.cancelRequests[q].status == Pending
    requires StockCountService.Finalize(d, c, result).Done?
    ensures UnderReview(d, StockCountService.Finalize(d, c, result).db, q)
  {
    var d' := StockCountService.Finalize(d, c, result).db;
    SalesProofs.FinalizeQuiet(d, c, result);
    assert SalesInvariant.LinesKept(d.lines, d'.lines);
  }

  lemma PendingStays(d: Db, actor: Id, op: Op, q: Id)
    requires StockInv(d) && q < |d.cancelRequests| && d.cancelRequests[q].status == Pending
    requires Apply(d, actor, op).Done? && !Reviews(op, q)
    ensures UnderReview(d, Apply(d, actor, op).db, q)
  {
    var o := d.cancelRequests[q].order;
    if About(d, op) == Some(o) {
      PendingRefuses(d, actor, op, q);
    } else if About(d, op).Some? {
      OrderOpTouches(d, actor, op);
    } else if op.FinalizeCount? {
      FinalizeKeepsReview(d, op.count, op.result, q);
    } else {
      OtherOpTouchesNot(d, actor, op, o);
    }
  }

  lemma NextKeepsReview(s: State, call: Call, q: Id)
    requires StockInv(s.db) && q < |s.db.cancelRequests| && s.db.cancelRequests[q].status == Pending
    requires !Reviews(call.op, q)
    ensures UnderReview(s.db, Next(s, call).db, q)
  {
    if Apply(s.db, call.actor, call.op).Done? {
      PendingStays(s.db, call.actor, call.op, q);
    }
  }

  lemma {:induction false} RunKeepsReview(s: State, calls: seq<Call>, q: Id)
    requires Inv(s.db) && q < |s.db.cancelRequests| && s.db.cancelRequests[q].status == Pending
    requires forall n | 0 <= n < |calls| :: !Reviews(calls[n].op, q)
    ensures UnderReview(s.db, Run(s, calls).db, q)
  {
    if calls != [] {
      var init := calls[..|calls| - 1];
      RunKeepsReview(s, init, q);
      RunKeeps(s, init);
      NextKeepsReview(Run(s, init), calls[|calls| - 1], q);
    }
  }

  /** Until someone reviews the request, its order stays confirmed and unassigned, nothing of it is picked, and its
      shipped quantities do not move. */
  lemma NothingShipsUnderReview(calls: seq<Call>, more: seq<Call>, q: Id)
    requires q < |Run(START, calls).db.cancelRequests| && Run(START, calls).db.cancelRequests[q].status == Pending
    requires forall n | 0 <= n < |more| :: !Reviews(more[n].op, q)
    ensures var d, d' := Run(START, calls).db, Run(START, calls + more).db;
            && UnderReview(d, d', q)
            && var o := d.cancelRequests[q].order;
               && d'.orders[o].status == Confirmed && d'.orders[o].assignee == None
               && forall i: Id | i < |d'.lines| && d'.lines[i].order == o ::
                   Picked(d'.lines[i]) == 0 && InspectedOf(d'.lines[i]) == 0
  {
    ReachableInv(calls);
    ReachableInv(calls + more);
    RunConcat(START, calls, more);
    RunKeepsReview(Run(START, calls), more, q);
    var d' := Run(START, calls + more).db;
    forall i: Id | i < |d'.lines| && d'.lines[i].order == d'.cancelRequests[q].order
      ensures Picked(d'.lines[i]) == 0 && InspectedOf(d'.lines[i]) == 0
    {
      assert LineOk(d'.orders, d'.lines[i]);
    }
  }
}
