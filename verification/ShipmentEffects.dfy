/** What a shipment posts to its customer's ledger, and who has the order afterwards. */
module ShipmentEffects {
  import opened Wrappers
  import opened Tables
  import opened StockInvariant
  import opened OrderService
  import opened WarehouseEffects
  import OrderInvariant

  // ---------- the charges ----------

  /** The entry charges the customer of the order for the picked units, today. */
  predicate Charges(orders: seq<Order>, lines: seq<Line>, x: Entry, shipmentLine: Id, pick: Pick, today: Date) {
    && pick.line < |lines| && lines[pick.line].order < |orders|
    && x.customer == orders[lines[pick.line].order].customer
    && x.source == OfShipment(shipmentLine, pick.line) && x.date == today
    && x.quantity == pick.quantity && x.price == lines[pick.line].price
    && x.supply == pick.quantity * lines[pick.line].price && x.amount == x.supply + x.tax
  }

  /** The shipping loop has come to pick `n`, and has charged for those before it. */
  ghost predicate ChargedUpTo(d: Db, e: Db, picks: seq<Pick>, today: Date, n: nat) {
    && n <= |picks| && e.orders == d.orders
    && |e.lines| == |d.lines| && (forall i: Id | i < |d.lines| :: SameLine(d.lines[i], e.lines[i]))
    && |e.shipmentLines| == |d.shipmentLines| + n
    && |e.entries| == |d.entries| + n && e.entries[..|d.entries|] == d.entries
    && forall m: Id | m < n ::
         Charges(d.orders, d.lines, e.entries[|d.entries| + m], |d.shipmentLines| + m, picks[m], today)
  }

  lemma ChargedNext(d: Db, e: Db, shipment: Id, picks: seq<Pick>, today: Date, n: nat)
    requires ChargedUpTo(d, e, picks, today, n) && n < |picks| && ShipRow(e, shipment, picks[n], today).Row?
    ensures ChargedUpTo(d, ShipRow(e, shipment, picks[n], today).db, picks, today, n + 1)
  {
    var e' := ShipRow(e, shipment, picks[n], today).db;
    assert SameLine(d.lines[picks[n].line], e.lines[picks[n].line]);
    forall m: Id | m < n + 1
      ensures Charges(d.orders, d.lines, e'.entries[|d.entries| + m], |d.shipmentLines| + m, picks[m], today)
    {
      if m < n {
        assert e'.entries[|d.entries| + m] == e.entries[|d.entries| + m];
      }
    }
    assert e'.entries[..|d.entries|] == e.entries[..|d.entries|];
  }

  lemma ShipFromCharges(d: Db, shipment: Id, picks: seq<Pick>, today: Date)
    requires ShipFrom(d, shipment, picks, today, 0, 0).Row?
    ensures ChargedUpTo(d, ShipFrom(d, shipment, picks, today, 0, 0).db, picks, today, |picks|)
  {
    var kept := (e: Db, m: nat) => ChargedUpTo(d, e, picks, today, m);
    forall e: Db, m: nat | kept(e, m) && m < |picks|
      ensures OrderInvariant.RowKeeps(kept, {}, e, shipment, picks, today, m)
    {
      if ShipRow(e, shipment, picks[m], today).Row? {
        ChargedNext(d, e, shipment, picks, today, m);
      }
    }
    assert kept(d, 0);
    OrderInvariant.ShipFromPreserves(kept, {}, d, shipment, picks, today, 0, 0);
  }

  /** The ledger before the shipment stays, and one charge per pick follows, in their order. */
  ghost predicate PicksCharged(d: Db, entries': seq<Entry>, picks: seq<Pick>, today: Date) {
    && |entries'| == |d.entries| + |picks| && entries'[..|d.entries|] == d.entries
    && forall m: Id | m < |picks| ::
         Charges(d.orders, d.lines, entries'[|d.entries| + m], |d.shipmentLines| + m, picks[m], today)
  }

  /** Whoever has the order, its customer is charged. */
  lemma ChargedAnyWorker(d: Db, o: Id, worker: Option<Id>, shipments: seq<Shipment>, e: Db, picks: seq<Pick>,
                         today: Date)
    requires o < |d.orders|
    requires ChargedUpTo(Assign(d, o, worker).(shipments := shipments), e, picks, today, |picks|)
    ensures PicksCharged(d, e.entries, picks, today)
  {
    var orders := Assign(d, o, worker).orders;
    forall m: Id | m < |picks|
      ensures Charges(d.orders, d.lines, e.entries[|d.entries| + m], |d.shipmentLines| + m, picks[m], today)
    {
      assert Charges(orders, d.lines, e.entries[|d.entries| + m], |d.shipmentLines| + m, picks[m], today);
    }
  }

  /** A shipment charges its customer for every pick, dated on the day it is shipped. */
  lemma ShipCharges(d: Db, actor: Id, picks: seq<Pick>, today: Date)
    requires StockInv(d) && OrderService.Ship(d, actor, picks, today).Done?
    ensures PicksCharged(d, OrderService.Ship(d, actor, picks, today).db.entries, picks, today)
  {
    ShipIs(d, actor, picks, today);
    var started, o := Started(d, actor, picks), d.lines[picks[0].line].order;
    ShipFromCharges(started, |d.shipments|, picks, today);
    var e := ShipFrom(started, |d.shipments|, picks, today, 0, 0).db;
    ChargedAnyWorker(d, o, Some(actor), started.shipments, e, picks, today);
  }

  // ---------- the worker ----------

  /** Some line of the order is still waiting to be shipped. */
  ghost predicate StillOpen(lines: seq<Line>, o: Id) {
    exists i: Id :: i < |lines| && lines[i].order == o && Open(lines[i]) > 0
  }

  /** A shipment is of one order and warehouse. Its worker has the order afterwards exactly when something of it is
      still to be shipped; otherwise nobody has. */
  lemma ShipAssigns(d: Db, actor: Id, picks: seq<Pick>, today: Date)
    requires StockInv(d) && OrderService.Ship(d, actor, picks, today).Done?
    ensures picks != [] && Shippable(d, picks[0].line)
    ensures var d', l := OrderService.Ship(d, actor, picks, today).db, d.lines[picks[0].line];
            && d'.shipments == d.shipments + [Shipment(l.order, l.sku.warehouse)]
            && |d'.orders| == |d.orders|
            && (forall o: Id | o < |d.orders| && o != l.order :: d'.orders[o] == d.orders[o])
            && d'.orders[l.order] ==
                 d.orders[l.order].(assignee := if StillOpen(d'.lines, l.order) then Some(actor) else None)
  {
    ShipIs(d, actor, picks, today);
    OpenIsOpen(OrderService.Ship(d, actor, picks, today).db.lines, d.lines[picks[0].line].order);
  }

  lemma OpenIsOpen(lines: seq<Line>, o: Id)
    ensures StillOpen(lines, o) <==> HasOpenLine(lines, o)
  {
    if i: Id :| i < |lines| && lines[i].order == o && Open(lines[i]) > 0 {
      assert IsActive(lines[i]);
    }
  }
}
