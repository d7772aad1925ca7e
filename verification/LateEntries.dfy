/** A run, without anything wrong in it, that takes the whole tax of a shipment back with the first of its two units,
    and leaves an entry in a month whose settlement is already closed. */
module LateEntries {
  import opened Wrappers
  import opened Tables
  import opened Sums
  import opened Totals
  import opened Commands
  import opened FalseAlarms
  import OrderService
  import CatalogService
  import ReturnService
  import ReceivableService
  import Invariant
  import Taxes
  import SettlementHistory

  lemma SumOne<T>(row: T, weight: T -> int)
    ensures Sum([row], weight) == weight(row)
  {
    SumAppend([], row, weight);
    assert [] + [row] == [row];
  }

  // ---------- two units are received, ordered and shipped ----------

  const RECEIVE_TWO := ReceiveStock(true, 0, [ReceiptRow(0, true, 2)])

  const ORDER_TWO := SubmitOrder(0, 0, true, [Item(0, 2, Some(Offer(5, Taxable(1000))))], 0, 0)

  const ARRIVED := EMPTY.(balances := Stocked(2, 0), movements := [Movement(SHELF, Received, 2)])

  const PAIR := Line(0, SHELF, 2, 0, 5, Taxable(1000), None)

  const ASKED := ARRIVED.(orders := [ORDER], lines := [PAIR])

  const PAIR_HELD := PAIR.(reserved := 2, reservation := Some(Reservation(2, 0, Active, 0, 0)))

  const GRANTED := ASKED.(orders := [ORDER.(status := Confirmed)], lines := [PAIR_HELD], balances := Stocked(2, 2),
                          events := [Event(0, Created, 2)])

  const TAKEN_UP := GRANTED.(orders := [ORDER.(status := Confirmed, assignee := Some(0))])

  const PICKED := TAKEN_UP.(lines := [PAIR_HELD.(reservation := Some(Reservation(2, 0, Active, 2, 0)))])

  const CHECKED := PICKED.(lines := [PAIR_HELD.(reservation := Some(Reservation(2, 0, Active, 2, 2)))])

  const CHARGE := Entry(0, OfShipment(0, 0), Date(0, 1), 2, 5, 10, 1, 11)

  const SHIPPED := CHECKED.(orders := [ORDER.(status := Confirmed)], balances := Stocked(0, 0),
                            lines := [PAIR_HELD.(reservation := Some(Reservation(2, 2, Fulfilled, 0, 0)))],
                            events := [Event(0, Created, 2), Event(0, Sent, 2)],
                            movements := [Movement(SHELF, Received, 2), Movement(SHELF, Dispatched, -2)],
                            shipments := [Shipment(0, 0)], shipmentLines := [ShipmentLine(0, 0, 2, 0)],
                            entries := [CHARGE])

  lemma ReceiveTwo()
    ensures Commits(EMPTY, RECEIVE_TWO, ARRIVED)
  {
    var rows := [ReceiptRow(0, true, 2)];
    var row := CatalogService.ReceiveRow(EMPTY, 0, rows[0], CatalogService.Repeated(rows, 0));
    assert row.Row? && row.db == ARRIVED;
    assert Apply(EMPTY, 0, RECEIVE_TWO) == Done(ARRIVED, StockReceived);
  }

  lemma OrderTwo()
    ensures Commits(ARRIVED, ORDER_TWO, ASKED)
  {
    assert OrderService.NewLines(0, 0, ORDER_TWO.items) == [PAIR];
    assert Apply(ARRIVED, 0, ORDER_TWO) == Done(ASKED, OrderSubmitted(0));
  }

  lemma ConfirmTwo()
    ensures Commits(ASKED, ConfirmOrder(0), GRANTED)
  {
    var row := OrderService.ConfirmRow(ASKED, 0);
    assert row.db.lines == [PAIR_HELD] && row.db.balances == Stocked(2, 2) && row.db.events == [Event(0, Created, 2)];
    assert OrderService.ConfirmFrom(row.db, 0, 1, 2, 0) == Done(GRANTED, OrderConfirmed(0, 2, 0));
    assert Apply(ASKED, 0, ConfirmOrder(0)) == Done(GRANTED, OrderConfirmed(0, 2, 0));
  }

  lemma ClaimTwo()
    ensures Commits(GRANTED, ClaimWork(0), TAKEN_UP)
  {
    assert GRANTED.lines[0] == PAIR_HELD;
    assert Apply(GRANTED, 0, ClaimWork(0)) == Done(TAKEN_UP, WorkClaimed(0, 0));
  }

  lemma PickTwo()
    ensures Commits(TAKEN_UP, SetWork(0, PickStage, [Pick(0, 2)]), PICKED)
  {
    var row := OrderService.WorkRowStep(TAKEN_UP, 0, PickStage, Pick(0, 2));
    assert row.Row? && row.db.lines == PICKED.lines;
    assert OrderService.WorkFrom(PICKED, 0, PickStage, [Pick(0, 2)], 1, [WorkRow(0, 2, 0)]) ==
           Done(PICKED, WorkRecorded(0, PickStage, [WorkRow(0, 2, 0)]));
    assert [] + [WorkRow(0, 2, 0)] == [WorkRow(0, 2, 0)];
    assert Apply(TAKEN_UP, 0, SetWork(0, PickStage, [Pick(0, 2)])) ==
        Done(PICKED, WorkRecorded(0, PickStage, [WorkRow(0, 2, 0)]));
  }

  lemma CheckTwo()
    ensures Commits(PICKED, SetWork(0, InspectStage, [Pick(0, 2)]), CHECKED)
  {
    var row := OrderService.WorkRowStep(PICKED, 0, InspectStage, Pick(0, 2));
    assert row.Row? && row.db.lines == CHECKED.lines;
    assert OrderService.WorkFrom(CHECKED, 0, InspectStage, [Pick(0, 2)], 1, [WorkRow(0, 2, 2)]) ==
           Done(CHECKED, WorkRecorded(0, InspectStage, [WorkRow(0, 2, 2)]));
    assert [] + [WorkRow(0, 2, 2)] == [WorkRow(0, 2, 2)];
    assert Apply(PICKED, 0, SetWork(0, InspectStage, [Pick(0, 2)])) ==
           Done(CHECKED, WorkRecorded(0, InspectStage, [WorkRow(0, 2, 2)]));
  }

  const STARTED := CHECKED.(shipments := [Shipment(0, 0)])

  lemma ChargeTwo()
    ensures Taxes.Target(Taxable(1000), Sum(STARTED.entries, SupplyOn(0)) + 10) - Sum(STARTED.entries, TaxOn(0)) == 1
  {
  }

  lemma SendTwo()
    ensures OrderService.ShipRow(STARTED, 0, Pick(0, 2), Date(0, 1)) == Row(SHIPPED.(orders := CHECKED.orders), 2)
  {
    ChargeTwo();
    assert STARTED.lines[0] == PAIR_HELD.(reservation := Some(Reservation(2, 0, Active, 2, 2)));
    assert OrderService.Shippable(STARTED, 0) && !UnderCount(STARTED.counts, SHELF);
    var d := OrderService.ShipRow(STARTED, 0, Pick(0, 2), Date(0, 1)).db;
    assert d.entries == SHIPPED.entries && d.shipmentLines == SHIPPED.shipmentLines;
    assert d.lines == SHIPPED.lines && d.events == SHIPPED.events;
    assert d.balances == SHIPPED.balances && d.movements == SHIPPED.movements;
  }

  lemma SendAll()
    ensures OrderService.ShipFrom(STARTED, 0, [Pick(0, 2)], Date(0, 1), 0, 0) ==
              Row(SHIPPED.(orders := CHECKED.orders), 2)
  {
    SendTwo();
    var sent := SHIPPED.(orders := CHECKED.orders);
    assert OrderService.ShipFrom(sent, 0, [Pick(0, 2)], Date(0, 1), 1, 2) == Row(sent, 2);
  }

  /** What a shipment of one pick comes to, given how its loop went. */
  lemma ShipsAs(d: Db, actor: Id, pick: Pick, today: Date, sent: Db)
    requires pick.quantity >= 1 && OrderService.Shippable(d, pick.line)
    requires var o := d.lines[pick.line].order; d.orders[o].assignee == Some(actor) && !HasPending(d.cancelRequests, o)
    requires var l := d.lines[pick.line];
             OrderService.ShipFrom(d.(shipments := d.shipments + [Shipment(l.order, l.sku.warehouse)]), |d.shipments|,
                                   [pick],
                                   today, 0, 0) == Row(sent, pick.quantity)
    ensures var o := d.lines[pick.line].order;
            && o < |sent.orders|
            && OrderService.Ship(d, actor, [pick], today) ==
                 Done(if HasOpenLine(sent.lines, o) then sent else OrderService.Assign(sent, o, None),
                      ShipmentCreated(|d.shipments|, pick.quantity))
  {
    assert d.orders[d.lines[pick.line].order := d.orders[d.lines[pick.line].order]] == d.orders;
  }

  lemma ReadyTwo()
    ensures CHECKED.lines == [PAIR_HELD.(reservation := Some(Reservation(2, 0, Active, 2, 2)))]
    ensures OrderService.Shippable(CHECKED, 0) && CHECKED.orders[0].assignee == Some(0)
    ensures !HasPending(CHECKED.cancelRequests, 0)
    ensures CHECKED.(shipments := CHECKED.shipments + [Shipment(0, 0)]) == STARTED
  {
  }

  lemma NothingOpenTwo()
    ensures var sent := SHIPPED.(orders := CHECKED.orders);
            |sent.orders| == 1 && !HasOpenLine(sent.lines, 0) && OrderService.Assign(sent, 0, None) == SHIPPED
  {
  }

  lemma SentTwo()
    ensures OrderService.Ship(CHECKED, 0, [Pick(0, 2)], Date(0, 1)) == Done(SHIPPED, ShipmentCreated(0, 2))
  {
    ReadyTwo();
    SendAll();
    NothingOpenTwo();
    ShipsAs(CHECKED, 0, Pick(0, 2), Date(0, 1), SHIPPED.(orders := CHECKED.orders));
  }

  lemma ShipTwo()
    ensures Commits(CHECKED, Ship([Pick(0, 2)], Date(0, 1)), SHIPPED)
  {
    SentTwo();
    assert Apply(CHECKED, 0, Ship([Pick(0, 2)], Date(0, 1))) == Done(SHIPPED, ShipmentCreated(0, 2));
  }

  // ---------- the month is settled, one unit comes back ----------

  const FIRST := Settlement(0, 0, Draft, 10, 1, 11, 10, None)

  const DRAFTED := SHIPPED.(settlements := [FIRST], settlementLines := [SettlementLine(0, 0, 10, 1, 11)])

  const CLOSED := DRAFTED.(settlements := [FIRST.(status := Finalized, due := Some(Date(1, 10)))])

  const RETURNING := CLOSED.(returnRequests := [Return(0, 0, Requested)],
                             returnLines := [ReturnLine(0, 0, SHELF, 1, 0, 0, 0)])

  const BACK := RETURNING.(returnRequests := [Return(0, 0, Inspected)],
                           returnLines := [ReturnLine(0, 0, SHELF, 1, 1, 1, 0)],
                           inspections := [Inspection(0, 0, 1, 1, 0, None)], balances := Stocked(1, 0),
                           movements := RETURNING.movements + [Movement(SHELF, Returned, 1)])

  /** The whole tax of 1 for one of two units. */
  const CREDIT := Credit(1, 5, 1, 6)

  const CREDITED := BACK.(inspections := [Inspection(0, 0, 1, 1, 0, Some(CREDIT))],
                          entries := [CHARGE, Entry(0, OfCredit(0, 0), Date(1, 1), 1, 5, -5, -1, -6)])

  lemma DraftFirst()
    ensures Commits(SHIPPED, DraftSettlement(0, 0, Some(10)), DRAFTED)
  {
    var line := SettlementLine(0, 0, 10, 1, 11);
    assert ReceivableService.DraftLines(SHIPPED, 0, 0, 0) == [];
    assert ReceivableService.DraftLines(SHIPPED, 0, 0, 1) == [line];
    SumOne(line, SupplyIn(0));
    SumOne(line, TaxIn(0));
    SumOne(line, AmountIn(0));
    assert Apply(SHIPPED, 0, DraftSettlement(0, 0, Some(10))) == Done(DRAFTED, SettlementDrafted(0, 10, 1, 11, 1));
  }

  lemma CloseFirst()
    ensures Commits(DRAFTED, FinalizeSettlement(0), CLOSED)
  {
    assert Apply(DRAFTED, 0, FinalizeSettlement(0)) == Done(CLOSED, SettlementFinalized(0, Date(1, 10)));
  }

  lemma AskForOne()
    ensures Commits(CLOSED, RequestReturn(0, [ReturnRow(0, 1)]), RETURNING)
  {
    var rows := [ReturnRow(0, 1)];
    assert ReturnService.ShippedTo(CLOSED, rows[0].shipmentLine, 0);
    assert ReturnService.RequestRow(CLOSED, 0, rows[0]) == RETURNING.returnLines[0];
    assert Apply(CLOSED, 0, RequestReturn(0, rows)) == Done(RETURNING, ReturnRequested(0));
  }

  lemma InspectOne()
    ensures Commits(RETURNING, InspectReturn(0, 1, 1, 0), BACK)
  {
    assert ReturnService.Complete(BACK.returnLines, 0);
    assert Apply(RETURNING, 0, InspectReturn(0, 1, 1, 0)) == Done(BACK, ReturnInspected(0, Inspected, 1, 1, 0));
  }

  lemma CreditOne()
    ensures Commits(BACK, CreditReturn(0, 1, Date(0, 2)), CREDITED)
  {
    SumOne(BACK.inspections[0], CreditedOn(0));
    SumOne(BACK.inspections[0], CreditedTaxOn(0));
    assert BACK.inspections == [BACK.inspections[0]];
    assert ReturnService.NextCredit(BACK, 0, 1) == CREDIT;
    assert BACK.settlementLines[0].entry == 0 && BACK.settlements[0].status == Finalized;
    assert Apply(BACK, 0, CreditReturn(0, 1, Date(0, 2))) == Done(CREDITED, ReturnCredited(0, CREDIT));
  }

  // ---------- the next month is settled, the credit is paid out ----------

  const SECOND := Settlement(0, 1, Draft, -5, -1, -6, 10, None)

  const DRAFTED_TOO :=
    CREDITED.(settlements := CLOSED.settlements + [SECOND],
              settlementLines := CLOSED.settlementLines + [SettlementLine(1, 1, -5, -1, -6)])

  const CLOSED_TOO :=
    DRAFTED_TOO.(settlements := CLOSED.settlements + [SECOND.(status := Finalized, due := Some(Date(2, 10)))])

  const REFUND := RecordRefund(FromCredit(0), 6, Date(0, 3), "R")

  const REFUNDED := CLOSED_TOO.(refunds := [Refund(FromCredit(0), 6, "R")],
                                entries := CREDITED.entries + [Entry(0, OfRefund(0), Date(1, 1), 1, 6, 6, 0, 6)])

  lemma DraftSecond()
    ensures Commits(CREDITED, DraftSettlement(0, 1, Some(10)), DRAFTED_TOO)
  {
    var line := SettlementLine(1, 1, -5, -1, -6);
    assert ReceivableService.DraftLines(CREDITED, 0, 1, 0) == [];
    assert ReceivableService.DraftLines(CREDITED, 0, 1, 1) == [];
    assert !ReceivableService.OnSettlement(CREDITED.settlementLines, 1);
    assert ReceivableService.DraftLines(CREDITED, 0, 1, 2) == [line];
    SumOne(line, SupplyIn(1));
    SumOne(line, TaxIn(1));
    SumOne(line, AmountIn(1));
    assert Apply(CREDITED, 0, DraftSettlement(0, 1, Some(10))) ==
        Done(DRAFTED_TOO, SettlementDrafted(1, -5, -1, -6, 1));
  }

  lemma CloseSecond()
    ensures Commits(DRAFTED_TOO, FinalizeSettlement(1), CLOSED_TOO)
  {
    assert Apply(DRAFTED_TOO, 0, FinalizeSettlement(1)) == Done(CLOSED_TOO, SettlementFinalized(1, Date(2, 10)));
  }

  lemma RefundSix()
    ensures Commits(CLOSED_TOO, REFUND, REFUNDED)
  {
    assert CLOSED_TOO.settlements[0].month == 0 && CLOSED_TOO.settlements[0].status == Finalized;
    assert ReceivableService.MonthClosed(CLOSED_TOO, 0, 0);
    assert Apply(CLOSED_TOO, 0, REFUND) == Done(REFUNDED, RefundRecorded(0, 6));
  }

  // ---------- the run ----------

  const SELLING := [RECEIVE_TWO] + [ORDER_TWO] + [ConfirmOrder(0)] + [ClaimWork(0)]

  const SENDING := SELLING + [SetWork(0, PickStage, [Pick(0, 2)])] + [SetWork(0, InspectStage, [Pick(0, 2)])]
                   + [Ship([Pick(0, 2)], Date(0, 1))]

  const RETURNING_ONE := SENDING + [DraftSettlement(0, 0, Some(10))] + [FinalizeSettlement(0)]
                         + [RequestReturn(0, [ReturnRow(0, 1)])] + [InspectReturn(0, 1, 1, 0)]

  const CREDITING := RETURNING_ONE + [CreditReturn(0, 1, Date(0, 2))]

  const PAYING_OUT := CREDITING + [DraftSettlement(0, 1, Some(10))] + [FinalizeSettlement(1)] + [REFUND]

  lemma PairSold()
    ensures LeadTo(SELLING, TAKEN_UP)
  {
    assert Calls([]) == [];
    assert LeadTo([], EMPTY);
    ReceiveTwo();
    NextOp([], RECEIVE_TWO, EMPTY, ARRIVED);
    assert [] + [RECEIVE_TWO] == [RECEIVE_TWO];
    OrderTwo();
    NextOp([RECEIVE_TWO], ORDER_TWO, ARRIVED, ASKED);
    ConfirmTwo();
    NextOp([RECEIVE_TWO] + [ORDER_TWO], ConfirmOrder(0), ASKED, GRANTED);
    ClaimTwo();
    NextOp([RECEIVE_TWO] + [ORDER_TWO] + [ConfirmOrder(0)], ClaimWork(0), GRANTED, TAKEN_UP);
  }

  lemma PairShipped()
    ensures LeadTo(SENDING, SHIPPED)
  {
    var pick, check := SetWork(0, PickStage, [Pick(0, 2)]), SetWork(0, InspectStage, [Pick(0, 2)]);
    PairSold();
    PickTwo();
    NextOp(SELLING, pick, TAKEN_UP, PICKED);
    CheckTwo();
    NextOp(SELLING + [pick], check, PICKED, CHECKED);
    ShipTwo();
    NextOp(SELLING + [pick] + [check], Ship([Pick(0, 2)], Date(0, 1)), CHECKED, SHIPPED);
  }

  lemma CameBack()
    ensures LeadTo(RETURNING_ONE, BACK)
  {
    var draft, ask := DraftSettlement(0, 0, Some(10)), RequestReturn(0, [ReturnRow(0, 1)]);
    PairShipped();
    DraftFirst();
    NextOp(SENDING, draft, SHIPPED, DRAFTED);
    CloseFirst();
    NextOp(SENDING + [draft], FinalizeSettlement(0), DRAFTED, CLOSED);
    AskForOne();
    NextOp(SENDING + [draft] + [FinalizeSettlement(0)], ask, CLOSED, RETURNING);
    InspectOne();
    NextOp(SENDING + [draft] + [FinalizeSettlement(0)] + [ask], InspectReturn(0, 1, 1, 0), RETURNING, BACK);
  }

  /** One of the two units is credited, and nothing is left of their tax. */
  lemma TaxComesBackEarly()
    ensures LeadTo(CREDITING, CREDITED)
    ensures var sent := CREDITED.shipmentLines[0];
            && Sum(CREDITED.inspections, CreditedOn(0)) == 1 < sent.quantity
            && Sum(CREDITED.inspections, CreditedTaxOn(0)) == CREDITED.entries[sent.entry].tax == 1
  {
    CameBack();
    CreditOne();
    NextOp(RETURNING_ONE, CreditReturn(0, 1, Date(0, 2)), BACK, CREDITED);
    SumOne(CREDITED.inspections[0], CreditedOn(0));
    SumOne(CREDITED.inspections[0], CreditedTaxOn(0));
    assert CREDITED.inspections == [CREDITED.inspections[0]];
  }

  lemma PaidOut()
    ensures LeadTo(PAYING_OUT, REFUNDED)
  {
    var draft := DraftSettlement(0, 1, Some(10));
    TaxComesBackEarly();
    DraftSecond();
    NextOp(CREDITING, draft, CREDITED, DRAFTED_TOO);
    CloseSecond();
    NextOp(CREDITING + [draft], FinalizeSettlement(1), DRAFTED_TOO, CLOSED_TOO);
    RefundSix();
    NextOp(CREDITING + [draft] + [FinalizeSettlement(1)], REFUND, CLOSED_TOO, REFUNDED);
  }

  /** The refund's entry is dated into a month whose settlement is closed, and no settlement bills it. */
  lemma RefundComesTooLate()
    ensures LeadTo(PAYING_OUT, REFUNDED)
    ensures var e := REFUNDED.entries[2];
            && e.source == OfRefund(0)
            && ReceivableService.MonthClosed(REFUNDED, e.customer, e.date.month)
            && !ReceivableService.OnSettlement(REFUNDED.settlementLines, 2)
  {
    PaidOut();
    assert REFUNDED.settlements[1].month == 1 && REFUNDED.settlements[1].status == Finalized;
  }

  /** And none ever will, whatever comes next. */
  lemma RefundIsNeverBilled(more: seq<Call>)
    ensures !ReceivableService.OnSettlement(Run(State(REFUNDED, Run(START, Calls(PAYING_OUT)).results),
                                                more).db.settlementLines, 2)
  {
    RefundComesTooLate();
    var s := Run(START, Calls(PAYING_OUT));
    Invariant.ReachableInv(Calls(PAYING_OUT));
    assert REFUNDED.settlements[1].customer == 0 && REFUNDED.settlements[1].month == 1;
    SettlementHistory.StrandedStays(s, more, 2);
  }
}
