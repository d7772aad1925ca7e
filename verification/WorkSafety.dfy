/** Only the worker who has an order works on it, and nobody is given an order by somebody else. */
module WorkSafety {
  import opened Wrappers
  import opened Tables
  import opened StockInvariant
  import opened Commands
  import opened Invariant
  import opened CancellationSafety
  import OrderService
  import OrderEffects
  import ReservationEffects
  import ShipmentEffects
  import StockCountInvariant
  import StockCountGreedy
  import StockCountService
  import WarehouseEffects

  // ---------- what a command does to a line's work and an order's worker ----------

  /** Nothing more of the line is picked, inspected or shipped. */
  predicate NoFurther(l: Line, l': Line) {
    Picked(l') <= Picked(l) && InspectedOf(l') <= InspectedOf(l) && Shipped(l') <= Shipped(l)
  }

  ghost predicate NoWork(d: Db, d': Db) {
    |d.lines| <= |d'.lines| && forall i: Id | i < |d.lines| :: NoFurther(d.lines[i], d'.lines[i])
  }

  /** The order's worker is as before, or nobody. */
  predicate NotTaken(d: Db, d': Db, o: Id) {
    && o < |d.orders| <= |d'.orders|
    && (d'.orders[o].assignee == None || d'.orders[o].assignee == d.orders[o].assignee)
  }

  /** The order was nobody's and is the caller's. */
  predicate TakenBy(d: Db, d': Db, o: Id, actor: Id) {
    o < |d.orders| <= |d'.orders| && d.orders[o].assignee == None && d'.orders[o].assignee == Some(actor)
  }

  /** The caller had the order, or, shipping, found it without a worker. */
  predicate MayWork(d: Db, actor: Id, op: Op, o: Id) {
    && o < |d.orders|
    && (op.SetWork? || op.Ship?)
    && (d.orders[o].assignee == Some(actor) || (op.Ship? && d.orders[o].assignee == None))
  }

  // ---------- command by command ----------

  lemma ConfirmNoWork(d: Db, o: Id)
    requires StockInv(d) && OrderService.Confirm(d, o).Done?
    ensures NoWork(d, OrderService.Confirm(d, o).db)
  {
    ReservationEffects.ConfirmExact(d, o);
    forall i: Id | i < |d.lines| ensures LineOk(d.orders, d.lines[i]) {
    }
  }

  lemma AllocateNoWork(d: Db, o: Id)
    requires StockInv(d) && OrderService.Allocate(d, o).Done?
    ensures NoWork(d, OrderService.Allocate(d, o).db)
  {
    ReservationEffects.AllocateExact(d, o);
    forall i: Id | i < |d.lines| ensures NoFurther(d.lines[i], OrderService.Allocate(d, o).db.lines[i]) {
      if d.lines[i].order == o {
        ReservationEffects.AllocationAdds(d, o, i);
      }
    }
  }

  lemma GaveUpNoWork(d: Db, d': Db, o: Id)
    requires StockInv(d)
    requires OrderEffects.GaveUp(d.lines, d'.lines, o) || OrderEffects.WorkUndone(d.lines, d'.lines, o)
    ensures NoWork(d, d')
  {
    forall i: Id | i < |d.lines| ensures NoFurther(d.lines[i], d'.lines[i]) {
      assert LineOk(d.orders, d.lines[i]);
    }
  }

  lemma FinalizeNoWork(d: Db, c: Id, result: int)
    requires StockInv(d) && StockCountService.Finalize(d, c, result).Done?
    ensures var d' := StockCountService.Finalize(d, c, result).db;
            NoWork(d, d') && d'.orders == d.orders && d'.cancelRequests == d.cancelRequests
  {
    StockCountInvariant.FinalizeIs(d, c, result);
    StockCountGreedy.FinalizeExact(d, c, result);
  }

  lemma SetWorkIsTheWorkers(d: Db, actor: Id, o: Id, stage: Stage, picks: seq<Pick>)
    requires StockInv(d) && OrderService.SetWork(d, actor, o, stage, picks).Done?
    ensures o < |d.orders| && d.orders[o].assignee == Some(actor)
    ensures OrderService.SetWork(d, actor, o, stage, picks).db.orders == d.orders
  {
    WarehouseEffects.SetWorkExact(d, actor, o, stage, picks);
  }

  lemma ShipIsTheWorkers(d: Db, actor: Id, picks: seq<Pick>, today: Date)
    requires StockInv(d) && OrderService.Ship(d, actor, picks, today).Done?
    ensures picks != [] && OrderService.Shippable(d, picks[0].line)
    ensures var d', o := OrderService.Ship(d, actor, picks, today).db, d.lines[picks[0].line].order;
            && (d.orders[o].assignee == None || d.orders[o].assignee == Some(actor))
            && |d'.orders| == |d.orders| && d'.orders[o].status == d.orders[o].status
            && (d'.orders[o].assignee == None || d'.orders[o].assignee == Some(actor))
            && forall p: Id | p < |d.orders| && p != o :: d'.orders[p] == d.orders[p]
  {
    WarehouseEffects.ShipSucceeds(d, actor, picks, today);
    ShipmentEffects.ShipAssigns(d, actor, picks, today);
  }

  // ---------- every command ----------

  lemma WorkOpIsTheWorkers(d: Db, actor: Id, op: Op, i: Id)
    requires StockInv(d) && Apply(d, actor, op).Done? && i < |d.lines|
    requires op.ConfirmOrder? || op.AllocateOrder? || op.ClaimWork? || op.ReleaseWork? || op.SetWork?
    ensures var d' := Apply(d, actor, op).db;
            i < |d'.lines| && (NoFurther(d.lines[i], d'.lines[i]) || MayWork(d, actor, op, d.lines[i].order))
  {
    OrderOpTouches(d, actor, op);
    if About(d, op) == Some(d.lines[i].order) {
      match op {
        case ConfirmOrder(o) => ConfirmNoWork(d, o);
        case AllocateOrder(o) => AllocateNoWork(d, o);
        case ClaimWork(_) =>
        case ReleaseWork(_) =>
        case SetWork(o, stage, picks) => SetWorkIsTheWorkers(d, actor, o, stage, picks);
      }
    }
  }

  lemma CancelOpIsTheWorkers(d: Db, actor: Id, op: Op, i: Id)
    requires StockInv(d) && Apply(d, actor, op).Done? && i < |d.lines|
    requires op.Ship? || op.CancelOrder? || op.RequestCancellation? || op.ReviewCancellation?
    ensures var d' := Apply(d, actor, op).db;
            i < |d'.lines| && (NoFurther(d.lines[i], d'.lines[i]) || MayWork(d, actor, op, d.lines[i].order))
  {
    OrderOpTouches(d, actor, op);
    if About(d, op) == Some(d.lines[i].order) {
      var d' := Apply(d, actor, op).db;
      match op {
        case Ship(picks, today) => ShipIsTheWorkers(d, actor, picks, today);
        case CancelOrder(o) =>
          OrderEffects.CancelExact(d, o);
          GaveUpNoWork(d, d', o);
        case RequestCancellation(customer, o) =>
          OrderEffects.RequestCancellationExact(d, customer, o);
          GaveUpNoWork(d, d', o);
        case ReviewCancellation(q, approve) =>
          OrderEffects.ReviewExact(d, q, approve);
          if approve {
            GaveUpNoWork(d, d', d.lines[i].order);
          }
      }
    }
  }

  /** Whoever picks, inspects or ships anything of an order has it, or ships an order nobody has. */
  lemma WorkIsTheWorkers(d: Db, actor: Id, op: Op, i: Id)
    requires StockInv(d) && Apply(d, actor, op).Done? && i < |d.lines|
    ensures var d' := Apply(d, actor, op).db;
            i < |d'.lines| && (NoFurther(d.lines[i], d'.lines[i]) || MayWork(d, actor, op, d.lines[i].order))
  {
    assert LineOk(d.orders, d.lines[i]);
    if op.Ship? || op.CancelOrder? || op.RequestCancellation? || op.ReviewCancellation? {
      CancelOpIsTheWorkers(d, actor, op, i);
    } else if About(d, op).Some? {
      WorkOpIsTheWorkers(d, actor, op, i);
    } else if op.FinalizeCount? {
      FinalizeNoWork(d, op.count, op.result);
    } else {
      OtherOpTouchesNot(d, actor, op, d.lines[i].order);
    }
  }

  lemma WorkOpTakes(d: Db, actor: Id, op: Op, o: Id)
    requires StockInv(d) && Apply(d, actor, op).Done? && About(d, op) == Some(o)
    requires op.ConfirmOrder? || op.AllocateOrder? || op.ClaimWork? || op.ReleaseWork? || op.SetWork?
    ensures var d' := Apply(d, actor, op).db;
            && |d'.orders| == |d.orders|
            && (NotTaken(d, d', o) || (TakenBy(d, d', o, actor) && op == ClaimWork(o)))
  {
    match op {
      case ConfirmOrder(_) => ReservationEffects.ConfirmExact(d, o);
      case AllocateOrder(_) => ReservationEffects.AllocateExact(d, o);
      case ClaimWork(_) =>
      case ReleaseWork(_) =>
      case SetWork(_, stage, picks) => SetWorkIsTheWorkers(d, actor, o, stage, picks);
    }
  }

  lemma ShipTakes(d: Db, actor: Id, op: Op, o: Id)
    requires StockInv(d) && Apply(d, actor, op).Done? && About(d, op) == Some(o) && op.Ship?
    ensures var d' := Apply(d, actor, op).db;
            && |d'.orders| == |d.orders|
            && (NotTaken(d, d', o) || TakenBy(d, d', o, actor))
  {
    ShipIsTheWorkers(d, actor, op.picks, op.today);
  }

  lemma CancelOpTakes(d: Db, actor: Id, op: Op, o: Id)
    requires StockInv(d) && Apply(d, actor, op).Done? && About(d, op) == Some(o)
    requires op.Ship? || op.CancelOrder? || op.RequestCancellation? || op.ReviewCancellation?
    ensures var d' := Apply(d, actor, op).db;
            && |d'.orders| == |d.orders|
            && (NotTaken(d, d', o) || (TakenBy(d, d', o, actor) && op.Ship?))
  {
    match op {
      case Ship(_, _) => ShipTakes(d, actor, op, o);
      case CancelOrder(_) => OrderEffects.CancelExact(d, o);
      case RequestCancellation(customer, _) => OrderEffects.RequestCancellationExact(d, customer, o);
      case ReviewCancellation(q, approve) => OrderEffects.ReviewExact(d, q, approve);
    }
  }

  /** An order passes to a worker only by the worker's own claim or shipment, and only from nobody. */
  lemma OrdersAreTaken(d: Db, actor: Id, op: Op, o: Id)
    requires StockInv(d) && Apply(d, actor, op).Done? && o < |d.orders|
    ensures var d' := Apply(d, actor, op).db;
            NotTaken(d, d', o) || (TakenBy(d, d', o, actor) && (op == ClaimWork(o) || op.Ship?))
  {
    if About(d, op) == Some(o) {
      if op.Ship? || op.CancelOrder? || op.RequestCancellation? || op.ReviewCancellation? {
        CancelOpTakes(d, actor, op, o);
      } else {
        WorkOpTakes(d, actor, op, o);
      }
    } else if About(d, op).Some? {
      OrderOpTouches(d, actor, op);
    } else if op.FinalizeCount? {
      FinalizeNoWork(d, op.count, op.result);
    } else {
      OtherOpTouchesNot(d, actor, op, o);
    }
  }

  lemma OrderOpAddsNone(d: Db, actor: Id, op: Op)
    requires StockInv(d) && Apply(d, actor, op).Done? && About(d, op).Some?
    ensures |Apply(d, actor, op).db.orders| == |d.orders|
  {
    if op.Ship? || op.CancelOrder? || op.RequestCancellation? || op.ReviewCancellation? {
      CancelOpTakes(d, actor, op, About(d, op).value);
    } else {
      WorkOpTakes(d, actor, op, About(d, op).value);
    }
  }

  /** Orders are added by submission only, as it says, and to nobody. */
  lemma NewIsUnassigned(d: Db, actor: Id, op: Op, o: Id)
    requires StockInv(d) && Apply(d, actor, op).Done? && |d.orders| <= o < |Apply(d, actor, op).db.orders|
    ensures op.SubmitOrder? && op.partiesActive
    ensures Apply(d, actor, op).db.orders[o] ==
              Order(op.customer, op.warehouse, Submitted, op.createdAt, op.uuid, None)
  {
    if op.SubmitOrder? {
      OrderEffects.SubmitExact(d, op.customer, op.warehouse, op.partiesActive, op.items, op.createdAt, op.uuid);
    } else if About(d, op).Some? {
      OrderOpAddsNone(d, actor, op);
    } else if op.FinalizeCount? {
      FinalizeNoWork(d, op.count, op.result);
    } else {
      OtherOpUntouched(d, actor, op);
    }
  }

  // ---------- every run ----------

  /** The worker claims the order, or ships something. */
  predicate Takes(call: Call, o: Id, worker: Id) {
    call.actor == worker && (call.op == ClaimWork(o) || call.op.Ship?)
  }

  lemma NextTakes(s: State, call: Call, o: Id, worker: Id)
    requires StockInv(s.db) && o < |Next(s, call).db.orders| && Next(s, call).db.orders[o].assignee == Some(worker)
    ensures Takes(call, o, worker) || (o < |s.db.orders| && s.db.orders[o].assignee == Some(worker))
  {
    if Apply(s.db, call.actor, call.op).Done? {
      if o < |s.db.orders| {
        OrdersAreTaken(s.db, call.actor, call.op, o);
      } else {
        NewIsUnassigned(s.db, call.actor, call.op, o);
      }
    }
  }

  /** After any run, a worker who has an order took it by a call of its own. */
  lemma {:induction false} WorkersTookTheirOrders(calls: seq<Call>, o: Id, worker: Id)
    requires o < |Run(START, calls).db.orders| && Run(START, calls).db.orders[o].assignee == Some(worker)
    ensures exists n: nat :: n < |calls| && Takes(calls[n], o, worker)
  {
    if calls != [] {
      var init, last := calls[..|calls| - 1], calls[|calls| - 1];
      ReachableInv(init);
      NextTakes(Run(START, init), last, o, worker);
      if !Takes(last, o, worker) {
        WorkersTookTheirOrders(init, o, worker);
        var n: nat :| n < |init| && Takes(init[n], o, worker);
        assert Takes(calls[n], o, worker);
      }
    }
  }

  /** After any run, a call that picks, inspects or ships anything of an order is by the worker who has it, or ships an
      order nobody has. */
  lemma OnlyWorkersWork(calls: seq<Call>, call: Call, i: Id)
    requires i < |Run(START, calls).db.lines|
    ensures var s := Run(START, calls);
            && i < |Next(s, call).db.lines|
            && (NoFurther(s.db.lines[i], Next(s, call).db.lines[i])
                || MayWork(s.db, call.actor, call.op, s.db.lines[i].order))
  {
    ReachableInv(calls);
    var s := Run(START, calls);
    if Apply(s.db, call.actor, call.op).Done? {
      WorkIsTheWorkers(s.db, call.actor, call.op, i);
    }
  }
}
