/** The order commands as the service runs them: row after row, with running counters, on the shared database. */
module OrderCommands {
  import opened Wrappers
  import opened Tables
  import opened Sums
  import opened Totals
  import opened Store
  import opened OrderService

  method Submit(db: Database, customer: Id, warehouse: Id, partiesActive: bool, items: seq<Item>, createdAt: int,
                uuid: int)
    returns (answer: Result<Reply, Error>)
    modifies db
    ensures Performs(OrderService.Submit(old(db.tables), customer, warehouse, partiesActive, items, createdAt, uuid),
                     db.tables, answer)
  {
    if !ItemsValid(items) { return Failure(BadRequest); }
    if !partiesActive { return Failure(PartyUnavailable); }
    if exists i | 0 <= i < |items| :: items[i].offer.None? { return Failure(ProductUnavailable); }
    if exists o | 0 <= o < |db.tables.orders| :: db.tables.orders[o].uuid == uuid {
      return Failure(ConstraintViolation);
    }
    var o := |db.tables.orders|;
    db.InsertOrder(Order(customer, warehouse, Submitted, createdAt, uuid, None));
    ghost var before := db.tables.lines;
    for n := 0 to |items|
      invariant db.tables == old(db.tables).(orders := db.tables.orders,
                                             lines := before + NewLines(o, warehouse, items)[..n])
      invariant db.tables.orders == old(db.tables).orders
          + [Order(customer, warehouse, Submitted, createdAt, uuid, None)]
    {
      var item := items[n];
      db.InsertLine(Line(o, Sku(warehouse, item.product), item.quantity, 0, item.offer.value.price,
                         item.offer.value.tax, None));
    }
    assert NewLines(o, warehouse, items)[..|items|] == NewLines(o, warehouse, items);
    return Success(OrderSubmitted(o));
  }

  method Confirm(db: Database, o: Id) returns (answer: Result<Reply, Error>)
    modifies db
    ensures Performs(OrderService.Confirm(old(db.tables), o), db.tables, answer)
  {
    if o >= |db.tables.orders| { return Failure(NotFound); }
    if db.tables.orders[o].status != Submitted { return Failure(AlreadyProcessed); }
    var reserved, unreserved := 0, 0;
    for i := 0 to |db.tables.lines|
      invariant |db.tables.lines| == |old(db.tables).lines| && db.tables.orders == old(db.tables).orders
      invariant ConfirmFrom(db.tables, o, i, reserved, unreserved) == OrderService.Confirm(old(db.tables), o)
    {
      var l := db.tables.lines[i];
      if l.order == o {
        if UnderCount(db.tables.counts, l.sku) { return Failure(SkuUnderCount); }
        var quantity := Min(l.requested, Available(db.tables.balances, l.sku));
        reserved, unreserved := reserved + quantity, unreserved + l.requested - quantity;
        if quantity != 0 {
          db.UpdateBalance(l.sku, Hold(db.tables.balances[l.sku], quantity));
          db.UpdateLine(i, l.(reserved := quantity, reservation := Some(Reservation(quantity, 0, Active, 0, 0))));
          db.InsertEvent(Event(i, Created, quantity));
        }
      }
    }
    db.UpdateOrder(o, db.tables.orders[o].(status := Confirmed));
    return Success(OrderConfirmed(o, reserved, unreserved));
  }

  /** One turn of the allocation loop: the units still waited for are reserved as far as there are any. */
  method AllocateLine(db: Database, i: Id) returns (added: Result<int, Error>)
    requires i < |db.tables.lines|
    modifies db
    ensures AllocateRow(old(db.tables), i) ==
              match added case Success(quantity) => Row(db.tables, quantity) case Failure(error) => Stop(error)
  {
    var l := db.tables.lines[i];
    var waiting := l.requested - l.reserved;
    if waiting <= 0 { return Success(0); }
    if UnderCount(db.tables.counts, l.sku) { return Failure(SkuUnderCount); }
    var quantity := Min(waiting, Available(db.tables.balances, l.sku));
    if quantity == 0 { return Success(0); }
    db.UpdateBalance(l.sku, Hold(db.tables.balances[l.sku], quantity));
    db.UpdateLine(i, l.(reserved := l.reserved + quantity, reservation := Some(Extend(l.reservation, quantity))));
    db.InsertEvent(Event(i, Created, quantity));
    return Success(quantity);
  }

  method Allocate(db: Database, o: Id) returns (answer: Result<Reply, Error>)
    modifies db
    ensures Performs(OrderService.Allocate(old(db.tables), o), db.tables, answer)
  {
    if o >= |db.tables.orders| { return Failure(NotFound); }
    if db.tables.orders[o].status != Confirmed { return Failure(NotAllocatable); }
    if HasPending(db.tables.cancelRequests, o) { return Failure(ReviewPending); }
    if HasCountedLine(db.tables, o) { return Failure(OrderUnderCount); }
    var total, left := 0, 0;
    for i := 0 to |db.tables.lines|
      invariant |db.tables.lines| == |old(db.tables).lines|
      invariant AllocateFrom(db.tables, o, i, total, left) == OrderService.Allocate(old(db.tables), o)
    {
      if db.tables.lines[i].order == o {
        var waiting := Waiting(db.tables.lines[i]);
        var added := AllocateLine(db, i);
        if added.Failure? { return Failure(added.error); }
        total, left := total + added.value, left + waiting - added.value;
      }
    }
    return Success(OrderAllocated(o, total, left));
  }

  method Claim(db: Database, actor: Id, o: Id) returns (answer: Result<Reply, Error>)
    modifies db
    ensures Performs(OrderService.Claim(old(db.tables), actor, o), db.tables, answer)
  {
    if o >= |db.tables.orders| || db.tables.orders[o].status != Confirmed { return Failure(WorkUnavailable); }
    if !HasOpenLine(db.tables.lines, o) || HasPending(db.tables.cancelRequests, o) { return Failure(WorkUnavailable); }
    if HasCountedActiveLine(db.tables, o) { return Failure(OrderUnderCount); }
    var assignee := db.tables.orders[o].assignee;
    if assignee.Some? && assignee.value != actor { return Failure(AssignedToAnother); }
    if assignee.None? {
      db.UpdateOrder(o, db.tables.orders[o].(assignee := Some(actor)));
    }
    assert old(db.tables).orders[o := old(db.tables).orders[o]] == old(db.tables).orders;
    return Success(WorkClaimed(o, actor));
  }

  method ReleaseWork(db: Database, actor: Id, o: Id) returns (answer: Result<Reply, Error>)
    modifies db
    ensures Performs(OrderService.ReleaseWork(old(db.tables), actor, o), db.tables, answer)
  {
    if o >= |db.tables.orders| || db.tables.orders[o].assignee.None? { return Failure(NotAssigned); }
    if db.tables.orders[o].assignee.value != actor { return Failure(AssignedToAnother); }
    db.UpdateOrder(o, db.tables.orders[o].(assignee := None));
    return Success(WorkReleased(o, actor));
  }

  method SetWork(db: Database, actor: Id, o: Id, stage: Stage, picks: seq<Pick>) returns (answer: Result<Reply, Error>)
    modifies db
    ensures Performs(OrderService.SetWork(old(db.tables), actor, o, stage, picks), db.tables, answer)
  {
    if !PicksValid(picks, 0) { return Failure(BadRequest); }
    if o >= |db.tables.orders| || db.tables.orders[o].status != Confirmed { return Failure(WorkUnavailable); }
    if db.tables.orders[o].assignee != Some(actor) { return Failure(AssignedToAnother); }
    if HasPending(db.tables.cancelRequests, o) { return Failure(ReviewPending); }
    var rows := [];
    for n := 0 to |picks|
      invariant WorkFrom(db.tables, o, stage, picks, n, rows) ==
          OrderService.SetWork(old(db.tables), actor, o, stage, picks)
    {
      var i, quantity := picks[n].line, picks[n].quantity;
      if i >= |db.tables.lines| || db.tables.lines[i].order != o || !IsActive(db.tables.lines[i]) {
        return Failure(ReservationUnavailable);
      }
      var l := db.tables.lines[i];
      if UnderCount(db.tables.counts, l.sku) { return Failure(SkuUnderCount); }
      var r := l.reservation.value;
      var picked := if stage == PickStage then quantity else r.picked;
      var inspected := if stage == InspectStage then quantity else r.inspected;
      if picked > r.quantity - r.shipped { return Failure(PickExceedsReservation); }
      if inspected > picked { return Failure(InspectionExceedsPick); }
      db.UpdateLine(i, l.(reservation := Some(r.(picked := picked, inspected := inspected))));
      rows := rows + [WorkRow(i, picked, inspected)];
    }
    return Success(WorkRecorded(o, stage, rows));
  }

  method Ship(db: Database, actor: Id, picks: seq<Pick>, today: Date) returns (answer: Result<Reply, Error>)
    modifies db
    ensures Performs(OrderService.Ship(old(db.tables), actor, picks, today), db.tables, answer)
  {
    if !PicksValid(picks, 1) { return Failure(BadRequest); }
    for n := 0 to |picks|
      invariant db.tables == old(db.tables)
      invariant forall m | 0 <= m < n :: Shippable(db.tables, picks[m].line)
    {
      if !Shippable(db.tables, picks[n].line) { return Failure(ReservationUnavailable); }
    }
    var o, warehouse := db.tables.lines[picks[0].line].order, db.tables.lines[picks[0].line].sku.warehouse;
    if exists n | 0 <= n < |picks| ::
         db.tables.lines[picks[n].line].order != o || db.tables.lines[picks[n].line].sku.warehouse != warehouse {
      return Failure(MixedShipment);
    }
    var assignee := db.tables.orders[o].assignee;
    if assignee.Some? && assignee.value != actor { return Failure(AssignedToAnother); }
    if assignee.None? {
      db.UpdateOrder(o, db.tables.orders[o].(assignee := Some(actor)));
    }
    assert old(db.tables).orders[o := old(db.tables).orders[o]] == old(db.tables).orders;
    if HasPending(db.tables.cancelRequests, o) { return Failure(ReviewPending); }
    var shipment := |db.tables.shipments|;
    db.InsertShipment(Shipment(o, warehouse));
    var shipped := ShipLines(db, shipment, picks, today);
    if shipped.Failure? { return Failure(shipped.error); }
    if !HasOpenLine(db.tables.lines, o) {
      db.UpdateOrder(o, db.tables.orders[o].(assignee := None));
    }
    return Success(ShipmentCreated(shipment, shipped.value));
  }

  /** The shipping loop, in the order of the input. */
  method ShipLines(db: Database, shipment: Id, picks: seq<Pick>, today: Date) returns (shipped: Result<int, Error>)
    modifies db
    ensures ShipFrom(old(db.tables), shipment, picks, today, 0, 0) ==
              match shipped case Success(quantity) => Row(db.tables, quantity) case Failure(error) => Stop(error)
  {
    var quantity := 0;
    ghost var outcome := ShipFrom(db.tables, shipment, picks, today, 0, 0);
    for n := 0 to |picks|
      invariant ShipFrom(db.tables, shipment, picks, today, n, quantity) == outcome
    {
      var failure := ShipTurn(db, shipment, picks, today, n, quantity);
      if failure.Some? { return Failure(failure.value); }
      quantity := quantity + picks[n].quantity;
    }
    return Success(quantity);
  }

  /** One turn of the shipping loop: what is left of it afterwards. */
  method ShipTurn(db: Database, shipment: Id, picks: seq<Pick>, today: Date, n: nat, ghost quantity: int)
    returns (failure: Option<Error>)
    requires n < |picks|
    modifies db
    ensures ShipFrom(old(db.tables), shipment, picks, today, n, quantity) ==
              match failure
              case None => ShipFrom(db.tables, shipment, picks, today, n + 1, quantity + picks[n].quantity)
              case Some(error) => Stop(error)
  {
    failure := ShipLine(db, shipment, picks[n], today);
  }

  /** Ship one line of the input. */
  method ShipLine(db: Database, shipment: Id, pick: Pick, today: Date) returns (failure: Option<Error>)
    modifies db
    ensures ShipRow(old(db.tables), shipment, pick, today) ==
              match failure case None => Row(db.tables, pick.quantity) case Some(error) => Stop(error)
  {
    var i, quantity := pick.line, pick.quantity;
    if !Shippable(db.tables, i) { return Some(ReservationUnavailable); }
    var l := db.tables.lines[i];
    var r, k := l.reservation.value, l.sku;
    if quantity > r.quantity - r.shipped { return Some(ShipmentExceedsReservation); }
    if quantity > r.inspected { return Some(ShipmentExceedsInspection); }
    if UnderCount(db.tables.counts, k) { return Some(SkuUnderCount); }
    if k !in db.tables.balances
       || db.tables.balances[k].onHand < quantity || db.tables.balances[k].reserved < quantity {
      return Some(ReservedUnavailable);
    }
    var lineId := |db.tables.shipmentLines|;
    db.InsertShipmentLine(ShipmentLine(shipment, i, quantity, |db.tables.entries|));
    db.UpdateBalance(k, Balance(db.tables.balances[k].onHand - quantity, db.tables.balances[k].reserved - quantity));
    var status := if r.shipped + quantity == r.quantity then Fulfilled else Active;
    var r' := Reservation(r.quantity, r.shipped + quantity, status, r.picked - quantity, r.inspected - quantity);
    db.UpdateLine(i, l.(reservation := Some(r')));
    db.InsertEvent(Event(i, Sent, quantity));
    db.InsertMovement(Movement(k, Dispatched, -quantity));
    var supply := quantity * l.price;
    var cumulative := Sum(db.tables.entries, SupplyOn(i)) + supply;
    var target := if l.tax.Taxable? then (cumulative * l.tax.rateBps + 5000) / 10000 else 0;
    var tax := target - Sum(db.tables.entries, TaxOn(i));
    var customer := db.tables.orders[l.order].customer;
    db.InsertEntry(Entry(customer, OfShipment(lineId, i), today, quantity, l.price, supply, tax, supply + tax));
    return None;
  }

  /** Set the picked and inspected quantities of the order's lines back to 0. */
  method ResetShipmentWork(db: Database, o: Id)
    modifies db
    ensures db.tables == old(db.tables).(lines := ResetWork(old(db.tables).lines, o))
  {
    for i := 0 to |db.tables.lines|
      invariant db.tables == old(db.tables).(lines := db.tables.lines) && |db.tables.lines| == |old(db.tables).lines|
      invariant forall j | 0 <= j < i :: db.tables.lines[j] == ResetWork(old(db.tables).lines, o)[j]
      invariant forall j | i <= j < |db.tables.lines| :: db.tables.lines[j] == old(db.tables).lines[j]
    {
      if db.tables.lines[i].order == o && (Picked(db.tables.lines[i]) > 0 || InspectedOf(db.tables.lines[i]) > 0) {
        db.UpdateLine(i, Unworked(db.tables.lines[i]));
      }
    }
  }

  /** Drop the order's work, free what it still holds, and take it off its worker. */
  method ReleaseOrderReservations(db: Database, o: Id) returns (answer: Result<int, Error>)
    requires o < |db.tables.orders|
    modifies db
    ensures match ReleaseFrom(old(db.tables).(lines := ResetWork(old(db.tables).lines, o)), o, 0, 0)
            case Row(after, freed) =>
              && answer == Success(freed)
              && db.tables == after.(orders := old(db.tables).orders[o := old(db.tables).orders[o].(assignee := None)])
            case Stop(error) => answer == Failure(error)
  {
    ResetShipmentWork(db, o);
    ghost var reset := db.tables;
    var freed := 0;
    for i := 0 to |db.tables.lines|
      invariant |db.tables.lines| == |old(db.tables).lines| && db.tables.orders == old(db.tables).orders
      invariant ReleaseFrom(db.tables, o, i, freed) == ReleaseFrom(reset, o, 0, 0)
    {
      var l := db.tables.lines[i];
      if l.order == o && IsActive(l) {
        var quantity, k := l.reservation.value.quantity - l.reservation.value.shipped, l.sku;
        if quantity != 0 {
          if k !in db.tables.balances || db.tables.balances[k].reserved < quantity {
            return Failure(ReservedUnavailable);
          }
          if UnderCount(db.tables.counts, k) { return Failure(SkuUnderCount); }
          db.UpdateBalance(k, db.tables.balances[k].(reserved := db.tables.balances[k].reserved - quantity));
          db.UpdateLine(i, l.(reserved := l.reserved - quantity,
                              reservation := Some(l.reservation.value.(status := Released))));
          db.InsertEvent(Event(i, Freed, quantity));
          freed := freed + quantity;
        }
      }
    }
    db.UpdateOrder(o, db.tables.orders[o].(assignee := None));
    return Success(freed);
  }

  method Cancel(db: Database, o: Id) returns (answer: Result<Reply, Error>)
    modifies db
    ensures Performs(OrderService.Cancel(old(db.tables), o), db.tables, answer)
  {
    if o >= |db.tables.orders| { return Failure(NotFound); }
    if db.tables.orders[o].status != Confirmed { return Failure(NotCancellable); }
    if HasPending(db.tables.cancelRequests, o) { return Failure(ReviewPending); }
    var freed := ReleaseOrderReservations(db, o);
    if freed.Failure? { return Failure(freed.error); }
    db.UpdateOrder(o, db.tables.orders[o].(status := Cancelled));
    return Success(OrderCancelled(o, freed.value));
  }

  method RequestCancellation(db: Database, customer: Id, o: Id) returns (answer: Result<Reply, Error>)
    modifies db
    ensures Performs(OrderService.RequestCancellation(old(db.tables), customer, o), db.tables, answer)
  {
    if o >= |db.tables.orders| || db.tables.orders[o].customer != customer { return Failure(NotFound); }
    if db.tables.orders[o].status != Confirmed { return Failure(NotCancellable); }
    if Sum(db.tables.lines, UnshippedOf(o)) < 1 { return Failure(NothingUnshipped); }
    if HasPending(db.tables.cancelRequests, o) { return Failure(AlreadyRequested); }
    var q := |db.tables.cancelRequests|;
    db.InsertCancelRequest(CancelRequest(o, Pending));
    db.UpdateOrder(o, db.tables.orders[o].(assignee := None));
    ResetShipmentWork(db, o);
    return Success(CancellationRequested(q, o));
  }

  method Review(db: Database, q: Id, approve: bool) returns (answer: Result<Reply, Error>)
    modifies db
    ensures Performs(OrderService.Review(old(db.tables), q, approve), db.tables, answer)
  {
    if q >= |db.tables.cancelRequests| { return Failure(NotFound); }
    var o := db.tables.cancelRequests[q].order;
    if db.tables.cancelRequests[q].status != Pending { return Failure(AlreadyReviewed); }
    if o >= |db.tables.orders| || db.tables.orders[o].status != Confirmed { return Failure(NotReviewable); }
    if !approve {
      db.UpdateCancelRequest(q, db.tables.cancelRequests[q].(status := Rejected));
      return Success(CancellationRejected(q, o));
    }
    var freed := ReleaseOrderReservations(db, o);
    if freed.Failure? { return Failure(freed.error); }
    db.UpdateOrder(o, db.tables.orders[o].(status := Cancelled));
    db.UpdateCancelRequest(q, db.tables.cancelRequests[q].(status := Approved));
    return Success(CancellationApproved(q, o, freed.value));
  }
}
