/** Submission, confirmation, allocation, warehouse work, shipping and cancellation of orders. */
module OrderService {
  import opened Wrappers
  import opened Tables
  import opened Sums
  import opened Totals
  import Taxes

  // ---------- submit ----------

  predicate ItemsValid(items: seq<Item>) {
    && items != []
    && (forall i | 0 <= i < |items| :: items[i].quantity >= 1)
    && (forall i, j | 0 <= i < j < |items| :: items[i].product != items[j].product)
  }

  function NewLines(o: Id, warehouse: Id, items: seq<Item>): (lines: seq<Line>)
    requires forall i | 0 <= i < |items| :: items[i].quantity >= 1 && items[i].offer.Some?
    ensures |lines| == |items|
  {
    seq(|items|, i requires 0 <= i < |items| =>
      Line(o, Sku(warehouse, items[i].product), items[i].quantity, 0, items[i].offer.value.price,
           items[i].offer.value.tax, None))
  }

  function Submit(d: Db, customer: Id, warehouse: Id, partiesActive: bool, items: seq<Item>, createdAt: int,
                  uuid: int): Outcome {
    if !ItemsValid(items) then Failed(BadRequest)
    else if !partiesActive then Failed(PartyUnavailable)
    else if exists i | 0 <= i < |items| :: items[i].offer.None? then Failed(ProductUnavailable)
    else if exists o | 0 <= o < |d.orders| :: d.orders[o].uuid == uuid then Failed(ConstraintViolation)
    else
      var o := |d.orders|;
      Done(d.(orders := d.orders + [Order(customer, warehouse, Submitted, createdAt, uuid, None)],
              lines := d.lines + NewLines(o, warehouse, items)),
           OrderSubmitted(o))
  }

  // ---------- confirm and allocate ----------

  /** Nothing but balances, order lines and reservation events differs. */
  predicate OnlyReservations(d: Db, d': Db) {
    && d' == d.(balances := d'.balances, lines := d'.lines, events := d'.events)
    && |d'.lines| == |d.lines|
  }

  /** Nothing but what a shipment writes differs. */
  predicate OnlySales(d: Db, d': Db) {
    && d' == d.(balances := d'.balances, lines := d'.lines, events := d'.events, movements := d'.movements,
                shipmentLines := d'.shipmentLines, entries := d'.entries)
    && |d'.lines| == |d.lines|
  }

  function Hold(b: Balance, quantity: int): Balance {
    b.(reserved := b.reserved + quantity)
  }

  /** Reserve what is available for one line of an order being confirmed. */
  function ConfirmRow(d: Db, i: Id): Row
    requires i < |d.lines|
  {
    var l := d.lines[i];
    if UnderCount(d.counts, l.sku) then Stop(SkuUnderCount)
    else
      var quantity := Min(l.requested, Available(d.balances, l.sku));
      if quantity == 0 then Row(d, 0)
      else
        Row(d.(balances := d.balances[l.sku := Hold(d.balances[l.sku], quantity)],
               lines := d.lines[i := l.(reserved := quantity,
                                        reservation := Some(Reservation(quantity, 0, Active, 0, 0)))],
               events := d.events + [Event(i, Created, quantity)]),
            quantity)
  }

  function ConfirmFrom(d: Db, o: Id, i: nat, reserved: int, unreserved: int): (out: Outcome)
    requires o < |d.orders|
    ensures out.Failed? ==> out.error == SkuUnderCount
    decreases |d.lines| - i
  {
    if i >= |d.lines| then
      Done(d.(orders := d.orders[o := d.orders[o].(status := Confirmed)]), OrderConfirmed(o, reserved, unreserved))
    else if d.lines[i].order != o then ConfirmFrom(d, o, i + 1, reserved, unreserved)
    else
      match ConfirmRow(d, i)
      case Stop(error) => Failed(error)
      case Row(d', quantity) =>
        ConfirmFrom(d', o, i + 1, reserved + quantity, unreserved + d.lines[i].requested - quantity)
  }

  function Confirm(d: Db, o: Id): Outcome {
    if o >= |d.orders| then Failed(NotFound)
    else if d.orders[o].status != Submitted then Failed(AlreadyProcessed)
    else ConfirmFrom(d, o, 0, 0, 0)
  }

  function Waiting(l: Line): int {
    Max(0, l.requested - l.reserved)
  }

  /** A later allocation reopens a released reservation from its shipped quantity and otherwise extends it. */
  function Extend(reservation: Option<Reservation>, quantity: int): Reservation {
    match reservation
    case None => Reservation(quantity, 0, Active, 0, 0)
    case Some(r) =>
      r.(quantity := (if r.status == Released then r.shipped else r.quantity) + quantity, status := Active)
  }

  /** Reserve more for one line of a confirmed order that still waits for stock. */
  function AllocateRow(d: Db, i: Id): Row
    requires i < |d.lines|
  {
    var l := d.lines[i];
    if Waiting(l) == 0 then Row(d, 0)
    else if UnderCount(d.counts, l.sku) then Stop(SkuUnderCount)
    else
      var quantity := Min(Waiting(l), Available(d.balances, l.sku));
      if quantity == 0 then Row(d, 0)
      else
        Row(d.(balances := d.balances[l.sku := Hold(d.balances[l.sku], quantity)],
               lines := d.lines[i := l.(reserved := l.reserved + quantity,
                                        reservation := Some(Extend(l.reservation, quantity)))],
               events := d.events + [Event(i, Created, quantity)]),
            quantity)
  }

  function AllocateFrom(d: Db, o: Id, i: nat, added: int, waiting: int): (out: Outcome)
    ensures out.Failed? ==> out.error == SkuUnderCount
    decreases |d.lines| - i
  {
    if i >= |d.lines| then Done(d, OrderAllocated(o, added, waiting))
    else if d.lines[i].order != o then AllocateFrom(d, o, i + 1, added, waiting)
    else
      match AllocateRow(d, i)
      case Stop(error) => Failed(error)
      case Row(d', quantity) =>
        AllocateFrom(d', o, i + 1, added + quantity, waiting + Waiting(d.lines[i]) - quantity)
  }

  predicate HasCountedLine(d: Db, o: Id) {
    exists i | 0 <= i < |d.lines| :: d.lines[i].order == o && UnderCount(d.counts, d.lines[i].sku)
  }

  function Allocate(d: Db, o: Id): Outcome {
    if o >= |d.orders| then Failed(NotFound)
    else if d.orders[o].status != Confirmed then Failed(NotAllocatable)
    else if HasPending(d.cancelRequests, o) then Failed(ReviewPending)
    else if HasCountedLine(d, o) then Failed(OrderUnderCount)
    else AllocateFrom(d, o, 0, 0, 0)
  }

  // ---------- warehouse work ----------

  predicate HasCountedActiveLine(d: Db, o: Id) {
    exists i | 0 <= i < |d.lines| ::
      d.lines[i].order == o && IsActive(d.lines[i]) && UnderCount(d.counts, d.lines[i].sku)
  }

  function Assign(d: Db, o: Id, assignee: Option<Id>): Db
    requires o < |d.orders|
  {
    d.(orders := d.orders[o := d.orders[o].(assignee := assignee)])
  }

  function Claim(d: Db, actor: Id, o: Id): Outcome {
    if o >= |d.orders| || d.orders[o].status != Confirmed then Failed(WorkUnavailable)
    else if !HasOpenLine(d.lines, o) || HasPending(d.cancelRequests, o) then Failed(WorkUnavailable)
    else if HasCountedActiveLine(d, o) then Failed(OrderUnderCount)
    else if d.orders[o].assignee.Some? && d.orders[o].assignee.value != actor then Failed(AssignedToAnother)
    else Done(Assign(d, o, Some(actor)), WorkClaimed(o, actor))
  }

  function ReleaseWork(d: Db, actor: Id, o: Id): Outcome {
    if o >= |d.orders| || d.orders[o].assignee.None? then Failed(NotAssigned)
    else if d.orders[o].assignee.value != actor then Failed(AssignedToAnother)
    else Done(Assign(d, o, None), WorkReleased(o, actor))
  }

  /** At least one row, no reservation twice, and no quantity under `least`. */
  predicate PicksValid(picks: seq<Pick>, least: int) {
    && picks != []
    && (forall n | 0 <= n < |picks| :: picks[n].quantity >= least)
    && (forall m, n | 0 <= m < n < |picks| :: picks[m].line != picks[n].line)
  }

  /** Record one picked or inspected quantity; the other quantity stays. */
  function WorkRowStep(d: Db, o: Id, stage: Stage, pick: Pick): Row {
    if pick.line >= |d.lines| || d.lines[pick.line].order != o || !IsActive(d.lines[pick.line]) then
      Stop(ReservationUnavailable)
    else
      var l := d.lines[pick.line];
      var r := l.reservation.value;
      var picked := if stage == PickStage then pick.quantity else r.picked;
      var inspected := if stage == InspectStage then pick.quantity else r.inspected;
      if UnderCount(d.counts, l.sku) then Stop(SkuUnderCount)
      else if picked > r.quantity - r.shipped then Stop(PickExceedsReservation)
      else if inspected > picked then Stop(InspectionExceedsPick)
      else
        Row(d.(lines := d.lines[pick.line := l.(reservation := Some(r.(picked := picked, inspected := inspected)))]), 0)
  }

  function WorkFrom(d: Db, o: Id, stage: Stage, picks: seq<Pick>, n: nat, rows: seq<WorkRow>): (out: Outcome)
    ensures out.Failed? ==>
              out.error in {ReservationUnavailable, SkuUnderCount, PickExceedsReservation, InspectionExceedsPick}
    decreases |picks| - n
  {
    if n >= |picks| then Done(d, WorkRecorded(o, stage, rows))
    else
      match WorkRowStep(d, o, stage, picks[n])
      case Stop(error) => Failed(error)
      case Row(d', _) =>
        var l := d'.lines[picks[n].line];
        WorkFrom(d', o, stage, picks, n + 1, rows + [WorkRow(picks[n].line, Picked(l), InspectedOf(l))])
  }

  function SetWork(d: Db, actor: Id, o: Id, stage: Stage, picks: seq<Pick>): Outcome {
    if !PicksValid(picks, 0) then Failed(BadRequest)
    else if o >= |d.orders| || d.orders[o].status != Confirmed then Failed(WorkUnavailable)
    else if d.orders[o].assignee != Some(actor) then Failed(AssignedToAnother)
    else if HasPending(d.cancelRequests, o) then Failed(ReviewPending)
    else WorkFrom(d, o, stage, picks, 0, [])
  }

  // ---------- ship ----------

  predicate Shippable(d: Db, i: Id) {
    && i < |d.lines| && IsActive(d.lines[i])
    && d.lines[i].order < |d.orders|
  }

  /** Ship one reserved line: stock leaves, the reservation and its work shrink, and the customer is charged the
      supply price plus whatever tax is still missing from the line's cumulative target. */
  function ShipRow(d: Db, shipment: Id, pick: Pick, today: Date): Row {
    if !Shippable(d, pick.line) then Stop(ReservationUnavailable)
    else
      var l, quantity := d.lines[pick.line], pick.quantity;
      var r, k := l.reservation.value, l.sku;
      if quantity > r.quantity - r.shipped then Stop(ShipmentExceedsReservation)
      else if quantity > r.inspected then Stop(ShipmentExceedsInspection)
      else if UnderCount(d.counts, k) then Stop(SkuUnderCount)
      else if k !in d.balances || d.balances[k].onHand < quantity || d.balances[k].reserved < quantity then
        Stop(ReservedUnavailable)
      else
        var supply := quantity * l.price;
        var tax := Taxes.Target(l.tax, Sum(d.entries, SupplyOn(pick.line)) + supply) - Sum(d.entries, TaxOn(pick.line));
        var b := d.balances[k];
        Row(d.(balances := d.balances[k := Balance(b.onHand - quantity, b.reserved - quantity)],
               movements := d.movements + [Movement(k, Dispatched, -quantity)],
               lines := d.lines[pick.line := l.(reservation := Some(Dispatch(r, quantity)))],
               events := d.events + [Event(pick.line, Sent, quantity)],
               shipmentLines := d.shipmentLines + [ShipmentLine(shipment, pick.line, quantity, |d.entries|)],
               entries := d.entries + [Entry(d.orders[l.order].customer, OfShipment(|d.shipmentLines|, pick.line),
                                             today, quantity, l.price, supply, tax, supply + tax)]),
            quantity)
  }

  function Dispatch(r: Reservation, quantity: int): Reservation {
    Reservation(r.quantity, r.shipped + quantity,
                if r.shipped + quantity == r.quantity then Fulfilled else Active,
                r.picked - quantity, r.inspected - quantity)
  }

  function ShipFrom(d: Db, shipment: Id, picks: seq<Pick>, today: Date, n: nat, quantity: int): (row: Row)
    ensures row.Row? ==> OnlySales(d, row.db)
    ensures row.Stop? ==>
              row.error in {ReservationUnavailable, ShipmentExceedsReservation, ShipmentExceedsInspection,
                            SkuUnderCount, ReservedUnavailable}
    decreases |picks| - n
  {
    if n >= |picks| then Row(d, quantity)
    else
      match ShipRow(d, shipment, picks[n], today)
      case Stop(error) => Stop(error)
      case Row(d', moved) => ShipFrom(d', shipment, picks, today, n + 1, quantity + moved)
  }

  function Ship(d: Db, actor: Id, picks: seq<Pick>, today: Date): Outcome {
    if !PicksValid(picks, 1) then Failed(BadRequest)
    else if exists n | 0 <= n < |picks| :: !Shippable(d, picks[n].line) then Failed(ReservationUnavailable)
    else
      var o, warehouse := d.lines[picks[0].line].order, d.lines[picks[0].line].sku.warehouse;
      if exists n | 0 <= n < |picks| ::
           d.lines[picks[n].line].order != o || d.lines[picks[n].line].sku.warehouse != warehouse then
        Failed(MixedShipment)
      else if d.orders[o].assignee.Some? && d.orders[o].assignee.value != actor then Failed(AssignedToAnother)
      else if HasPending(d.cancelRequests, o) then Failed(ReviewPending)
      else
        var started := Assign(d, o, Some(actor)).(shipments := d.shipments + [Shipment(o, warehouse)]);
        match ShipFrom(started, |d.shipments|, picks, today, 0, 0)
        case Stop(error) => Failed(error)
        case Row(d', quantity) =>
          var closed := if HasOpenLine(d'.lines, o) then d' else Assign(d', o, None);
          Done(closed, ShipmentCreated(|d.shipments|, quantity))
  }

  // ---------- cancel ----------

  function Unworked(l: Line): Line {
    match l.reservation
    case Some(r) => if r.picked > 0 || r.inspected > 0 then l.(reservation := Some(r.(picked := 0, inspected := 0)))
        else l
    case None => l
  }

  /** Every line of the order has its picked and inspected quantities set back to 0. */
  function ResetWork(lines: seq<Line>, o: Id): (reset: seq<Line>)
    ensures |reset| == |lines|
  {
    seq(|lines|, i requires 0 <= i < |lines| => if lines[i].order == o then Unworked(lines[i]) else lines[i])
  }

  /** Give back what one line of a cancelled order still has reserved. */
  function ReleaseRow(d: Db, i: Id): Row
    requires i < |d.lines|
  {
    var l := d.lines[i];
    if !IsActive(l) || Open(l) == 0 then Row(d, 0)
    else
      var quantity, k := Open(l), l.sku;
      if k !in d.balances || d.balances[k].reserved < quantity then Stop(ReservedUnavailable)
      else if UnderCount(d.counts, k) then Stop(SkuUnderCount)
      else
        Row(d.(balances := d.balances[k := Hold(d.balances[k], -quantity)],
               lines := d.lines[i := l.(reserved := l.reserved - quantity,
                                        reservation := Some(l.reservation.value.(status := Released)))],
               events := d.events + [Event(i, Freed, quantity)]),
            quantity)
  }

  function ReleaseFrom(d: Db, o: Id, i: nat, freed: int): (row: Row)
    ensures row.Row? ==> OnlyReservations(d, row.db)
    ensures row.Stop? ==> row.error in {ReservedUnavailable, SkuUnderCount}
    decreases |d.lines| - i
  {
    if i >= |d.lines| then Row(d, freed)
    else if d.lines[i].order != o then ReleaseFrom(d, o, i + 1, freed)
    else
      match ReleaseRow(d, i)
      case Stop(error) => Stop(error)
      case Row(d', quantity) => ReleaseFrom(d', o, i + 1, freed + quantity)
  }

  /** Drop the order's work, free its reservations, and take it off its worker. */
  function ReleaseOrder(d: Db, o: Id): Row
    requires o < |d.orders|
  {
    match ReleaseFrom(d.(lines := ResetWork(d.lines, o)), o, 0, 0)
    case Stop(error) => Stop(error)
    case Row(d', freed) => Row(d'.(orders := d.orders[o := d.orders[o].(status := Cancelled, assignee := None)]), freed)
  }

  function Cancel(d: Db, o: Id): Outcome {
    if o >= |d.orders| then Failed(NotFound)
    else if d.orders[o].status != Confirmed then Failed(NotCancellable)
    else if HasPending(d.cancelRequests, o) then Failed(ReviewPending)
    else
      match ReleaseOrder(d, o)
      case Stop(error) => Failed(error)
      case Row(d', freed) => Done(d', OrderCancelled(o, freed))
  }

  function RequestCancellation(d: Db, customer: Id, o: Id): Outcome {
    if o >= |d.orders| || d.orders[o].customer != customer then Failed(NotFound)
    else if d.orders[o].status != Confirmed then Failed(NotCancellable)
    else if Sum(d.lines, UnshippedOf(o)) < 1 then Failed(NothingUnshipped)
    else if HasPending(d.cancelRequests, o) then Failed(AlreadyRequested)
    else
      Done(Assign(d, o, None).(cancelRequests := d.cancelRequests + [CancelRequest(o, Pending)],
                               lines := ResetWork(d.lines, o)),
           CancellationRequested(|d.cancelRequests|, o))
  }

  function Reviewed(d: Db, q: Id, status: RequestStatus): Db
    requires q < |d.cancelRequests|
  {
    d.(cancelRequests := d.cancelRequests[q := d.cancelRequests[q].(status := status)])
  }

  function Review(d: Db, q: Id, approve: bool): Outcome {
    if q >= |d.cancelRequests| then Failed(NotFound)
    else if d.cancelRequests[q].status != Pending then Failed(AlreadyReviewed)
    else
      var o := d.cancelRequests[q].order;
      if o >= |d.orders| || d.orders[o].status != Confirmed then Failed(NotReviewable)
      else if !approve then Done(Reviewed(d, q, Rejected), CancellationRejected(q, o))
      else
        match ReleaseOrder(d, o)
        case Stop(error) => Failed(error)
        case Row(d', freed) => Done(Reviewed(d', q, Approved), CancellationApproved(q, o, freed))
  }
}
