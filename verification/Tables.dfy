/** The relational state of the five services, table by table.

    A row's identifier is its position in its table: identifiers are opaque and fresh, and rows are never deleted.
    Tables that a UNIQUE constraint makes one-to-one with another table are kept inside that table's row: the
    reservation and the pick/inspect work line of an order line, the work assignment of an order, the credit of a
    return inspection, and the reversals of a payment allocation. */
module Tables {
  import opened Wrappers

  type Id = nat

  // ---------- inventory ----------

  datatype Sku = Sku(warehouse: Id, product: Id)

  datatype Balance = Balance(onHand: int, reserved: int)

  datatype MovementKind = Received | Dispatched | Returned | Adjusted

  datatype Movement = Movement(sku: Sku, kind: MovementKind, delta: int)

  datatype CountStatus = Counting | Counted | Abandoned

  /** `result` and `freed` are meaningful once the count is finalized. */
  datatype Count = Count(sku: Sku, status: CountStatus, snapshot: Balance, result: int, freed: int)

  // ---------- orders ----------

  datatype OrderStatus = Submitted | Confirmed | Cancelled

  /** Orders are told apart by `uuid`, which also breaks ties between equal creation times. */
  datatype Order = Order(customer: Id, warehouse: Id, status: OrderStatus, createdAt: int, uuid: int,
                         assignee: Option<Id>)

  datatype ReservationStatus = Active | Fulfilled | Released

  /** `picked` and `inspected` belong to the work line; both are 0 while there is none. */
  datatype Reservation = Reservation(quantity: int, shipped: int, status: ReservationStatus,
                                     picked: int, inspected: int)

  datatype Tax = Exempt | Taxable(rateBps: nat)

  datatype Line = Line(order: Id, sku: Sku, requested: nat, reserved: int, price: nat, tax: Tax,
                       reservation: Option<Reservation>)

  datatype EventKind = Created | Freed | Sent

  /** A reservation event; a reservation is named by its order line. */
  datatype Event = Event(line: Id, kind: EventKind, quantity: int)

  datatype RequestStatus = Pending | Approved | Rejected

  datatype CancelRequest = CancelRequest(order: Id, status: RequestStatus)

  // ---------- shipments and returns ----------

  datatype Shipment = Shipment(order: Id, warehouse: Id)

  /** `entry` is the one receivable entry posted with the line. */
  datatype ShipmentLine = ShipmentLine(shipment: Id, line: Id, quantity: int, entry: Id)

  datatype ReturnStatus = Requested | Inspecting | Inspected

  datatype Return = Return(customer: Id, shipment: Id, status: ReturnStatus)

  /** `sku` is the shipped product in the warehouse it was shipped from. */
  datatype ReturnLine = ReturnLine(parent: Id, shipmentLine: Id, sku: Sku, requested: int,
                                   received: int, normal: int, defective: int)

  datatype Credit = Credit(quantity: int, supply: int, tax: int, amount: int)

  datatype Inspection = Inspection(returnLine: Id, shipmentLine: Id, received: int, normal: int, defective: int,
                                   credit: Option<Credit>)

  datatype Fate = Quarantine | Disposed | SupplierReturn

  datatype Disposition = Disposition(inspection: Id, quantity: int, fate: Fate)

  datatype Resolution = Resolution(disposition: Id, quantity: int, fate: Fate)

  // ---------- receivables ----------

  /** Months are numbered consecutively. */
  datatype Date = Date(month: int, day: int)

  /** What an entry was posted for. A shipment entry names the order line its shipment line belongs to, a credit
      entry the shipment line that was returned. */
  datatype Source =
    | OfShipment(shipmentLine: Id, line: Id)
    | OfCredit(inspection: Id, returned: Id)
    | OfRefund(refund: Id)

  datatype Entry = Entry(customer: Id, source: Source, date: Date, quantity: int, price: int,
                         supply: int, tax: int, amount: int)

  datatype SettlementStatus = Draft | Finalized

  type DueDay = day: int | 1 <= day <= 31 witness 1

  /** The customer's due day when it was drafted, and the date it comes to once the settlement is finalized. */
  datatype Settlement = Settlement(customer: Id, month: int, status: SettlementStatus,
                                   supply: int, tax: int, total: int, dueDay: DueDay, due: Option<Date>)

  datatype SettlementLine = SettlementLine(settlement: Id, entry: Id, supply: int, tax: int, amount: int)

  datatype PaymentStatus = Recorded | Voided

  datatype Payment = Payment(customer: Id, amount: int, status: PaymentStatus)

  /** `reversals` counts the reversal rows of the allocation; it is live while there is none. */
  datatype Allocation = Allocation(payment: Id, settlement: Id, amount: int, reversals: nat)

  datatype RefundSource = FromPayment(payment: Id) | FromCredit(inspection: Id)

  datatype Refund = Refund(source: RefundSource, amount: int, reference: string)

  // ---------- the whole database ----------

  datatype Db = Db(
    balances: map<Sku, Balance>, movements: seq<Movement>, counts: seq<Count>,
    orders: seq<Order>, lines: seq<Line>, events: seq<Event>, cancelRequests: seq<CancelRequest>,
    shipments: seq<Shipment>, shipmentLines: seq<ShipmentLine>,
    returnRequests: seq<Return>, returnLines: seq<ReturnLine>, inspections: seq<Inspection>,
    dispositions: seq<Disposition>, resolutions: seq<Resolution>,
    entries: seq<Entry>, settlements: seq<Settlement>, settlementLines: seq<SettlementLine>,
    payments: seq<Payment>, allocations: seq<Allocation>, refunds: seq<Refund>)

  /** The largest value of a database integer column. */
  const MAX_INTEGER := 0x7FFF_FFFF

  const EMPTY := Db(map[], [], [], [], [], [], [], [], [], [], [], [], [], [], [], [], [], [], [], [])

  // ---------- inputs ----------

  datatype Offer = Offer(price: nat, tax: Tax)

  /** One requested product, with the row the price query found for it, if any. */
  datatype Item = Item(product: Id, quantity: int, offer: Option<Offer>)

  /** A quantity for one reservation, named by its order line. */
  datatype Pick = Pick(line: Id, quantity: int)

  datatype Stage = PickStage | InspectStage

  datatype ReceiptRow = ReceiptRow(product: Id, known: bool, quantity: int)

  datatype ReturnRow = ReturnRow(shipmentLine: Id, quantity: int)

  // ---------- outputs ----------

  datatype Reply =
    | OrderSubmitted(order: Id)
    | OrderConfirmed(order: Id, reserved: int, unreserved: int)
    | OrderAllocated(order: Id, added: int, waiting: int)
    | OrderCancelled(order: Id, freed: int)
    | WorkClaimed(order: Id, worker: Id)
    | WorkReleased(order: Id, worker: Id)
    | WorkRecorded(order: Id, stage: Stage, rows: seq<WorkRow>)
    | ShipmentCreated(shipment: Id, quantity: int)
    | CancellationRequested(request: Id, order: Id)
    | CancellationApproved(request: Id, order: Id, freed: int)
    | CancellationRejected(request: Id, order: Id)
    | CountStarted(count: Id, snapshot: Balance)
    | CountFinalized(count: Id, result: int, freed: int, delta: int)
    | CountCancelled(count: Id)
    | StockAdjusted(delta: int, balance: Balance)
    | StockReceived
    | ReturnRequested(ret: Id)
    | ReturnInspected(returnLine: Id, status: ReturnStatus, received: int, normal: int, defective: int)
    | ReturnCredited(inspection: Id, credit: Credit)
    | DefectDecided(inspection: Id, quantity: int, fate: Fate)
    | DefectResolved(resolution: Id, quantity: int, fate: Fate)
    | SettlementDrafted(settlement: Id, supply: int, tax: int, total: int, lines: int)
    | SettlementFinalized(settlement: Id, due: Date)
    | PaymentRecorded(payment: Id, amount: int)
    | PaymentAllocated(allocation: Id, amount: int)
    | RefundRecorded(refund: Id, amount: int)
    | PaymentVoided(payment: Id, reversed: int)

  datatype WorkRow = WorkRow(line: Id, picked: int, inspected: int)

  /** One constructor per rejection; `BadRequest` is any input refused before a transaction starts and
      `ConstraintViolation` any row the database itself refuses. */
  datatype Error =
    | BadRequest
    | NotFound
    | ConstraintViolation
    | PartyUnavailable
    | ProductUnavailable
    | AlreadyProcessed
    | NotAllocatable
    | NotCancellable
    | ReviewPending
    | NothingUnshipped
    | AlreadyRequested
    | AlreadyReviewed
    | NotReviewable
    | WorkUnavailable
    | AssignedToAnother
    | NotAssigned
    | ReservationUnavailable
    | PickExceedsReservation
    | InspectionExceedsPick
    | MixedShipment
    | ShipmentExceedsReservation
    | ShipmentExceedsInspection
    | ReservedUnavailable
    | SkuUnderCount
    | OrderUnderCount
    | AlreadyCounting
    | PickedBeforeCount
    | PickedDuringCount
    | CountClosed
    | CannotReconcile
    | BalanceUnavailable
    | BelowReserved
    | MixedReturn
    | ReturnExceedsShipment
    | InspectionExceedsReturn
    | CreditExceedsInspection
    | AlreadyCredited
    | DispositionExceedsDefects
    | ResolutionExceedsQuarantine
    | SettlementExists
    | CustomerInactive
    | NothingToSettle
    | AlreadyFinalized
    | CustomersDiffer
    | AllocationExceedsBalance
    | ReferenceUsed
    | RefundExceedsSource
    | PaymentUnavailable
    | PaymentRefunded

  /** What a command's transaction does: commit a new database, or roll back. */
  datatype Outcome = Done(db: Db, reply: Reply) | Failed(error: Error)

  /** What handling one row inside a transaction does: write it and report a quantity, or abort everything. */
  datatype Row = Row(db: Db, moved: int) | Stop(error: Error)

  // ---------- what a line's columns mean ----------

  /** Units reserved but not yet shipped. */
  function Open(l: Line): int {
    match l.reservation
    case Some(r) => if r.status == Active then r.quantity - r.shipped else 0
    case None => 0
  }

  function Shipped(l: Line): int {
    match l.reservation
    case Some(r) => r.shipped
    case None => 0
  }

  function Picked(l: Line): int {
    match l.reservation
    case Some(r) => r.picked
    case None => 0
  }

  function InspectedOf(l: Line): int {
    match l.reservation
    case Some(r) => r.inspected
    case None => 0
  }

  predicate IsActive(l: Line) {
    l.reservation.Some? && l.reservation.value.status == Active
  }

  function BalanceOf(balances: map<Sku, Balance>, k: Sku): Balance {
    if k in balances then balances[k] else Balance(0, 0)
  }

  function Available(balances: map<Sku, Balance>, k: Sku): (units: int)
    ensures units >= 0
  {
    if k in balances then Max(0, balances[k].onHand - balances[k].reserved) else 0
  }

  predicate UnderCount(counts: seq<Count>, k: Sku) {
    exists c | 0 <= c < |counts| :: counts[c].status == Counting && counts[c].sku == k
  }

  predicate HasPending(requests: seq<CancelRequest>, o: Id) {
    exists q | 0 <= q < |requests| :: requests[q].order == o && requests[q].status == Pending
  }

  predicate HasOpenLine(lines: seq<Line>, o: Id) {
    exists i | 0 <= i < |lines| :: lines[i].order == o && IsActive(lines[i]) && Open(lines[i]) > 0
  }
}
