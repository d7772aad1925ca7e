/** The column weights whose totals the services query or keep redundantly. */
module Totals {
  import opened Wrappers
  import opened Tables

  // ---------- order lines ----------

  function OpenAt(k: Sku): Line -> int {
    (l: Line) => if l.sku == k then Open(l) else 0
  }

  function ShippedAt(k: Sku): Line -> int {
    (l: Line) => if l.sku == k then Shipped(l) else 0
  }

  function UnshippedOf(o: Id): Line -> int {
    (l: Line) => if l.order == o then l.requested - Shipped(l) else 0
  }

  // ---------- movements and reservation events ----------

  function DeltaAt(k: Sku): Movement -> int {
    (m: Movement) => if m.sku == k then m.delta else 0
  }

  function DeltaOfKind(k: Sku, kind: MovementKind): Movement -> int {
    (m: Movement) => if m.sku == k && m.kind == kind then m.delta else 0
  }

  /** Stock that came in from outside or was corrected. */
  function SuppliedAt(k: Sku): Movement -> int {
    (m: Movement) => if m.sku == k && (m.kind == Received || m.kind == Adjusted) then m.delta else 0
  }

  /** Stock that went to customers or came back from them. */
  function TradedAt(k: Sku): Movement -> int {
    (m: Movement) => if m.sku == k && (m.kind == Dispatched || m.kind == Returned) then m.delta else 0
  }

  function EventsOf(line: Id, kind: EventKind): Event -> int {
    (e: Event) => if e.line == line && e.kind == kind then e.quantity else 0
  }

  // ---------- shipments ----------

  function SentOn(line: Id): ShipmentLine -> int {
    (s: ShipmentLine) => if s.line == line then s.quantity else 0
  }

  function SupplyOn(line: Id): Entry -> int {
    (e: Entry) => if e.source.OfShipment? && e.source.line == line then e.supply else 0
  }

  function TaxOn(line: Id): Entry -> int {
    (e: Entry) => if e.source.OfShipment? && e.source.line == line then e.tax else 0
  }

  // ---------- returns ----------

  function RequestedOn(shipmentLine: Id): ReturnLine -> int {
    (r: ReturnLine) => if r.shipmentLine == shipmentLine then r.requested else 0
  }

  function ReceivedOn(shipmentLine: Id): ReturnLine -> int {
    (r: ReturnLine) => if r.shipmentLine == shipmentLine then r.received else 0
  }

  function NormalAt(k: Sku): ReturnLine -> int {
    (r: ReturnLine) => if r.sku == k then r.normal else 0
  }

  function InspectedOn(shipmentLine: Id): Inspection -> int {
    (n: Inspection) => if n.shipmentLine == shipmentLine then n.received else 0
  }

  function ReceivedFor(returnLine: Id): Inspection -> int {
    (n: Inspection) => if n.returnLine == returnLine then n.received else 0
  }

  function NormalFor(returnLine: Id): Inspection -> int {
    (n: Inspection) => if n.returnLine == returnLine then n.normal else 0
  }

  function DefectiveFor(returnLine: Id): Inspection -> int {
    (n: Inspection) => if n.returnLine == returnLine then n.defective else 0
  }

  function CreditedUnits(n: Inspection): int {
    match n.credit
    case Some(c) => c.quantity
    case None => 0
  }

  function CreditedTax(n: Inspection): int {
    match n.credit
    case Some(c) => c.tax
    case None => 0
  }

  function CreditedOn(shipmentLine: Id): Inspection -> int {
    (n: Inspection) => if n.shipmentLine == shipmentLine then CreditedUnits(n) else 0
  }

  function CreditedTaxOn(shipmentLine: Id): Inspection -> int {
    (n: Inspection) => if n.shipmentLine == shipmentLine then CreditedTax(n) else 0
  }

  function DecidedFor(inspection: Id): Disposition -> int {
    (d: Disposition) => if d.inspection == inspection then d.quantity else 0
  }

  function ResolvedFor(disposition: Id): Resolution -> int {
    (r: Resolution) => if r.disposition == disposition then r.quantity else 0
  }

  // ---------- receivables ----------

  /** What a shipment line still adds to its customer's ledger: its own entry and the credits against it. */
  function NetOn(shipmentLine: Id): Entry -> int {
    (e: Entry) =>
      match e.source
      case OfShipment(s, _) => if s == shipmentLine then e.amount else 0
      case OfCredit(_, s) => if s == shipmentLine then e.amount else 0
      case OfRefund(_) => 0
  }

  function OwedBy(customer: Id): Entry -> int {
    (e: Entry) => if e.customer == customer then e.amount else 0
  }

  function RefundedTo(customer: Id): Entry -> int {
    (e: Entry) => if e.customer == customer && e.source.OfRefund? then e.amount else 0
  }

  function SupplyIn(settlement: Id): SettlementLine -> int {
    (l: SettlementLine) => if l.settlement == settlement then l.supply else 0
  }

  function TaxIn(settlement: Id): SettlementLine -> int {
    (l: SettlementLine) => if l.settlement == settlement then l.tax else 0
  }

  function AmountIn(settlement: Id): SettlementLine -> int {
    (l: SettlementLine) => if l.settlement == settlement then l.amount else 0
  }

  function LiveFrom(payment: Id): Allocation -> int {
    (a: Allocation) => if a.payment == payment && a.reversals == 0 then a.amount else 0
  }

  function LiveTo(settlement: Id): Allocation -> int {
    (a: Allocation) => if a.settlement == settlement && a.reversals == 0 then a.amount else 0
  }

  function RefundedFrom(source: RefundSource): Refund -> int {
    (r: Refund) => if r.source == source then r.amount else 0
  }
}
