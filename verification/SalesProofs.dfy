/** The commands keep the sales invariant: the quiet ones at once, then shipping, returning, crediting and refunding. */
module SalesProofs {
  import opened Wrappers
  import opened Tables
  import opened Sums
  import opened Totals
  import opened SalesInvariant
  import opened StockInvariant
  import opened OrderService
  import StockCountService
  import CatalogService
  import Taxes

  // ---------- quiet commands ----------

  lemma SubmitQuiet(d: Db, customer: Id, warehouse: Id, partiesActive: bool, items: seq<Item>, createdAt: int,
                    uuid: int)
    ensures var out := Submit(d, customer, warehouse, partiesActive, items, createdAt, uuid);
            out.Done? ==> Quiet(d, out.db)
  {
  }

  /** None of the order's lines from `i` on has a reservation. */
  ghost predicate Unreserved(d: Db, o: Id, i: nat) {
    o < |d.orders| && forall j | i <= j < |d.lines| && d.lines[j].order == o :: d.lines[j].reservation == None
  }

  lemma ConfirmRowQuiet(d: Db, o: Id, i: Id)
    requires i < |d.lines| && d.lines[i].order == o && Unreserved(d, o, i)
    ensures ConfirmRow(d, i).Row? ==>
              Quiet(d, ConfirmRow(d, i).db) && Unreserved(ConfirmRow(d, i).db, o, i + 1)
  {
  }

  lemma {:induction false} ConfirmFromQuiet(d: Db, o: Id, i: nat, reserved: int, unreserved: int)
    requires Unreserved(d, o, i)
    ensures var out := ConfirmFrom(d, o, i, reserved, unreserved); out.Done? ==> Quiet(d, out.db)
    decreases |d.lines| - i
  {
    if i < |d.lines| {
      if d.lines[i].order != o {
        ConfirmFromQuiet(d, o, i + 1, reserved, unreserved);
      } else {
        ConfirmRowQuiet(d, o, i);
        match ConfirmRow(d, i)
        case Stop(_) =>
        case Row(d', quantity) =>
          var done := ConfirmFrom(d', o, i + 1, reserved + quantity, unreserved + d.lines[i].requested - quantity);
          ConfirmFromQuiet(d', o, i + 1, reserved + quantity, unreserved + d.lines[i].requested - quantity);
          if done.Done? {
            QuietTransitive(d, d', done.db);
          }
      }
    }
  }

  lemma ConfirmQuiet(d: Db, o: Id)
    requires StockInv(d)
    ensures Confirm(d, o).Done? ==> Quiet(d, Confirm(d, o).db)
  {
    if Confirm(d, o).Done? {
      forall j | 0 <= j < |d.lines| && d.lines[j].order == o ensures d.lines[j].reservation == None {
        assert LineOk(d.orders, d.lines[j]);
      }
      ConfirmFromQuiet(d, o, 0, 0, 0);
    }
  }

  lemma AllocateRowQuiet(d: Db, i: Id)
    requires i < |d.lines|
    ensures AllocateRow(d, i).Row? ==> Quiet(d, AllocateRow(d, i).db)
  {
  }

  lemma {:induction false} AllocateFromQuiet(d: Db, o: Id, i: nat, added: int, waiting: int)
    ensures var out := AllocateFrom(d, o, i, added, waiting); out.Done? ==> Quiet(d, out.db)
    decreases |d.lines| - i
  {
    if i < |d.lines| {
      if d.lines[i].order != o {
        AllocateFromQuiet(d, o, i + 1, added, waiting);
      } else {
        match AllocateRow(d, i)
        case Stop(_) =>
        case Row(d', quantity) =>
          AllocateRowQuiet(d, i);
          var done := AllocateFrom(d', o, i + 1, added + quantity, waiting + Waiting(d.lines[i]) - quantity);
          AllocateFromQuiet(d', o, i + 1, added + quantity, waiting + Waiting(d.lines[i]) - quantity);
          if done.Done? {
            QuietTransitive(d, d', done.db);
          }
      }
    }
  }

  lemma WorkRowQuiet(d: Db, o: Id, stage: Stage, pick: Pick)
    ensures WorkRowStep(d, o, stage, pick).Row? ==> Quiet(d, WorkRowStep(d, o, stage, pick).db)
  {
  }

  lemma {:induction false} WorkFromQuiet(d: Db, o: Id, stage: Stage, picks: seq<Pick>, n: nat, rows: seq<WorkRow>)
    ensures var out := WorkFrom(d, o, stage, picks, n, rows); out.Done? ==> Quiet(d, out.db)
    decreases |picks| - n
  {
    if n < |picks| {
      match WorkRowStep(d, o, stage, picks[n])
      case Stop(_) =>
      case Row(d', _) =>
        WorkRowQuiet(d, o, stage, picks[n]);
        var l := d'.lines[picks[n].line];
        var rows' := rows + [WorkRow(picks[n].line, Picked(l), InspectedOf(l))];
        var done := WorkFrom(d', o, stage, picks, n + 1, rows');
        WorkFromQuiet(d', o, stage, picks, n + 1, rows');
        if done.Done? {
          QuietTransitive(d, d', done.db);
        }
    }
  }

  lemma ReleaseRowQuiet(d: Db, i: Id)
    requires i < |d.lines|
    ensures ReleaseRow(d, i).Row? ==> Quiet(d, ReleaseRow(d, i).db)
  {
  }

  lemma {:induction false} ReleaseFromQuiet(d: Db, o: Id, i: nat, freed: int)
    ensures var row := ReleaseFrom(d, o, i, freed); row.Row? ==> Quiet(d, row.db)
    decreases |d.lines| - i
  {
    if i < |d.lines| {
      if d.lines[i].order != o {
        ReleaseFromQuiet(d, o, i + 1, freed);
      } else {
        match ReleaseRow(d, i)
        case Stop(_) =>
        case Row(d', quantity) =>
          ReleaseRowQuiet(d, i);
          var done := ReleaseFrom(d', o, i + 1, freed + quantity);
          ReleaseFromQuiet(d', o, i + 1, freed + quantity);
          if done.Row? {
            QuietTransitive(d, d', done.db);
          }
      }
    }
  }

  lemma ReleaseOrderQuiet(d: Db, o: Id)
    requires o < |d.orders|
    ensures ReleaseOrder(d, o).Row? ==> Quiet(d, ReleaseOrder(d, o).db)
  {
    var reset := d.(lines := ResetWork(d.lines, o));
    ReleaseFromQuiet(reset, o, 0, 0);
    assert Quiet(d, reset);
    if ReleaseOrder(d, o).Row? {
      QuietTransitive(d, reset, ReleaseFrom(reset, o, 0, 0).db);
      QuietTransitive(d, ReleaseFrom(reset, o, 0, 0).db, ReleaseOrder(d, o).db);
    }
  }

  lemma CancelQuiet(d: Db, o: Id)
    ensures Cancel(d, o).Done? ==> Quiet(d, Cancel(d, o).db)
  {
    if Cancel(d, o).Done? {
      ReleaseOrderQuiet(d, o);
    }
  }

  lemma RequestCancellationQuiet(d: Db, customer: Id, o: Id)
    ensures var out := RequestCancellation(d, customer, o); out.Done? ==> Quiet(d, out.db)
  {
  }

  lemma ReviewQuiet(d: Db, q: Id, approve: bool)
    ensures Review(d, q, approve).Done? ==> Quiet(d, Review(d, q, approve).db)
  {
    if Review(d, q, approve).Done? && approve {
      ReleaseOrderQuiet(d, d.cancelRequests[q].order);
    }
  }

  lemma {:induction false} ReceiveFromQuiet(d: Db, warehouse: Id, rows: seq<ReceiptRow>, n: nat)
    ensures var out := CatalogService.ReceiveFrom(d, warehouse, rows, n); out.Done? ==> Quiet(d, out.db)
    decreases |rows| - n
  {
    if n < |rows| {
      match CatalogService.ReceiveRow(d, warehouse, rows[n], CatalogService.Repeated(rows, n))
      case Stop(_) =>
      case Row(d', _) =>
        var done := CatalogService.ReceiveFrom(d', warehouse, rows, n + 1);
        ReceiveFromQuiet(d', warehouse, rows, n + 1);
        if done.Done? {
          QuietTransitive(d, d', done.db);
        }
    }
  }

  lemma AdjustQuiet(d: Db, k: Sku, delta: int)
    ensures var out := CatalogService.Adjust(d, k, delta); out.Done? ==> Quiet(d, out.db)
  {
  }

  lemma {:induction false} CutFromQuiet(d: Db, plan: seq<Id>, n: nat, shortage: int)
    ensures Quiet(d, StockCountService.CutFrom(d, plan, n, shortage).db)
    decreases |plan| - n
  {
    if n < |plan| && shortage != 0 {
      if plan[n] >= |d.lines| || d.lines[plan[n]].reservation.None? {
        CutFromQuiet(d, plan, n + 1, shortage);
      } else {
        var r := d.lines[plan[n]].reservation.value;
        var quantity := Min(shortage, r.quantity - r.shipped);
        var d' := StockCountService.CutRow(d, plan[n], quantity);
        CutFromQuiet(d', plan, n + 1, shortage - quantity);
        QuietTransitive(d, d', StockCountService.CutFrom(d', plan, n + 1, shortage - quantity).db);
      }
    }
  }

  lemma FinalizeQuiet(d: Db, c: Id, result: int)
    ensures var out := StockCountService.Finalize(d, c, result); out.Done? ==> Quiet(d, out.db)
  {
    var out := StockCountService.Finalize(d, c, result);
    if out.Done? {
      var k := d.counts[c].sku;
      var plan, shortage := StockCountService.NewestFirst(d, k, |d.lines|), Max(0, d.balances[k].reserved - result);
      CutFromQuiet(d, plan, 0, shortage);
      QuietTransitive(d, StockCountService.CutFrom(d, plan, 0, shortage).db, out.db);
    }
  }

  // ---------- ship ----------

  /** The one shipment line and entry that shipping a row adds. */
  ghost predicate ShippedRow(d: Db, d': Db, i: Id, quantity: int) {
    && i < |d.lines| && |d'.lines| == |d.lines| && SameLine(d.lines[i], d'.lines[i])
    && d'.lines == d.lines[i := d'.lines[i]]
    && Shipped(d'.lines[i]) == Shipped(d.lines[i]) + quantity
    && |d'.shipmentLines| == |d.shipmentLines| + 1 && |d'.entries| == |d.entries| + 1
    && d'.shipmentLines == d.shipmentLines + [d'.shipmentLines[|d.shipmentLines|]]
    && d'.entries == d.entries + [d'.entries[|d.entries|]]
    && d'.movements == d.movements + [Movement(d.lines[i].sku, Dispatched, -quantity)]
    && d' == d.(balances := d'.balances, movements := d'.movements, lines := d'.lines, events := d'.events,
                shipmentLines := d'.shipmentLines, entries := d'.entries)
  }

  lemma ShippedSent(d: Db, d': Db, i: Id, quantity: int, s: Id)
    requires ShippedRow(d, d', i, quantity) && s < |d.shipmentLines| && SentOk(d, s)
    ensures d'.shipmentLines[s] == d.shipmentLines[s]
    ensures SentOk(d', s) && CustomerOf(d', s) == CustomerOf(d, s)
    ensures d'.entries[d.shipmentLines[s].entry] == d.entries[d.shipmentLines[s].entry]
    ensures d'.lines[d.shipmentLines[s].line].price == d.lines[d.shipmentLines[s].line].price
    ensures d'.lines[d.shipmentLines[s].line].sku == d.lines[d.shipmentLines[s].line].sku
  {
    var sent := d.shipmentLines[s];
    assert d'.entries[sent.entry] == d.entries[sent.entry];
  }

  lemma ShipRowCharges(d: Db, shipment: Id, pick: Pick, today: Date)
    requires ShipmentsOk(d) && pick.quantity >= 1 && ShipRow(d, shipment, pick, today).Row?
    requires shipment < |d.shipments|
    requires d.shipments[shipment] == Shipment(d.lines[pick.line].order, d.lines[pick.line].sku.warehouse)
    ensures ShipmentsOk(ShipRow(d, shipment, pick, today).db)
  {
    var d' := ShipRow(d, shipment, pick, today).db;
    var i, q, s := pick.line, pick.quantity, |d.shipmentLines|;
    var l, sent, e := d.lines[i], d'.shipmentLines[s], d'.entries[|d.entries|];
    assert ShippedRow(d, d', i, q);
    assert ChargedOk(d, i);
    var before, after := Shipped(l) * l.price, (Shipped(l) + q) * l.price;
    Taxes.MulLeq(0, Shipped(l), l.price);
    Taxes.MulLeq(Shipped(l), Shipped(l) + q, l.price);
    Taxes.TargetGrows(l.tax, before, after);
    assert after == before + q * l.price;
    assert e.tax == Taxes.Target(l.tax, after) - Taxes.Target(l.tax, before);
    forall t: Id | t < |d'.shipmentLines| ensures SentOk(d', t) {
      if t < s {
        ShippedSent(d, d', i, q, t);
      }
    }
    forall j: Id ensures ChargedOk(d', j) {
      assert ChargedOk(d, j);
      SumAppend(d.shipmentLines, sent, SentOn(j));
      SumAppend(d.entries, e, SupplyOn(j));
      SumAppend(d.entries, e, TaxOn(j));
    }
  }

  lemma ShippedEntries(d: Db, d': Db, i: Id, quantity: int)
    requires ShippedRow(d, d', i, quantity) && EntriesOk(d) && ShipmentsOk(d')
    requires d'.entries[|d.entries|].source == OfShipment(|d.shipmentLines|, i)
    requires d'.shipmentLines[|d.shipmentLines|].entry == |d.entries| && d'.shipmentLines[|d.shipmentLines|].line == i
    ensures EntriesOk(d')
  {
    forall x: Id | x < |d'.entries| ensures EntryOk(d', x) {
      if x < |d.entries| {
        assert EntryOk(d, x);
        assert d'.entries[x] == d.entries[x];
        match d.entries[x].source
        case OfShipment(s, _) => ShippedSent(d, d', i, quantity, s);
        case OfCredit(_, s) => ShippedSent(d, d', i, quantity, s);
        case OfRefund(_) =>
      } else {
        assert SentOk(d', |d.shipmentLines|);
      }
    }
  }

  lemma ShippedReturns(d: Db, d': Db, i: Id, quantity: int)
    requires ShippedRow(d, d', i, quantity) && quantity >= 0 && ReturnsOk(d) && InspectionsOk(d) && ShipmentsOk(d')
    ensures ReturnsOk(d') && InspectionsOk(d')
  {
    forall r: Id | r < |d.returnLines| ensures ReturnLineOk(d', r) {
      assert ReturnLineOk(d, r);
      ShippedSent(d, d', i, quantity, d.returnLines[r].shipmentLine);
    }
    forall s: Id ensures AskedOk(d', s) {
      assert AskedOk(d, s);
      if s < |d.shipmentLines| {
        assert d'.shipmentLines[s] == d.shipmentLines[s];
      } else if s < |d'.shipmentLines| {
        assert SentOk(d', s);
      }
    }
    forall n: Id | n < |d.inspections| ensures InspectionOk(d', n) {
      assert InspectionOk(d, n);
      ShippedSent(d, d', i, quantity, d.inspections[n].shipmentLine);
    }
    forall r: Id ensures TalliedOk(d', r) {
      assert TalliedOk(d, r);
    }
  }

  lemma NothingCredited(d: Db, s: Id)
    requires InspectionsOk(d) && s >= |d.shipmentLines|
    ensures Sum(d.inspections, CreditedOn(s)) == 0 && Sum(d.inspections, CreditedTaxOn(s)) == 0
  {
    forall n: Id | n < |d.inspections| ensures d.inspections[n].shipmentLine != s {
      assert InspectionOk(d, n);
    }
    SumZero(d.inspections, CreditedOn(s));
    SumZero(d.inspections, CreditedTaxOn(s));
  }

  lemma ShippedCredits(d: Db, d': Db, i: Id, quantity: int)
    requires ShippedRow(d, d', i, quantity) && ShipmentsOk(d) && InspectionsOk(d) && CreditsOk(d) && ShipmentsOk(d')
    requires d'.entries[|d.entries|].source == OfShipment(|d.shipmentLines|, i)
    requires d'.shipmentLines[|d.shipmentLines|].entry == |d.entries|
    ensures CreditsOk(d')
  {
    var e := d'.entries[|d.entries|];
    forall s: Id ensures CreditedOk(d', s) {
      assert CreditedOk(d, s);
      SumAppend(d.entries, e, NetOn(s));
      if s < |d.shipmentLines| {
        ShippedSent(d, d', i, quantity, s);
      } else if s == |d.shipmentLines| {
        assert SentOk(d', s);
        NothingCredited(d, s);
        Taxes.ShareEnds(e.tax, d'.shipmentLines[s].quantity);
      }
    }
  }

  lemma ShippedFlows(d: Db, d': Db, i: Id, quantity: int)
    requires ShippedRow(d, d', i, quantity) && FlowsOk(d)
    ensures FlowsOk(d')
  {
    var move := Movement(d.lines[i].sku, Dispatched, -quantity);
    forall k ensures FlowOk(d', k) {
      assert FlowOk(d, k);
      SumAppend(d.movements, move, DeltaOfKind(k, Dispatched));
      SumAppend(d.movements, move, DeltaOfKind(k, Returned));
      SumUpdate(d.lines, i, d'.lines[i], ShippedAt(k));
    }
  }

  lemma ShipRowSales(d: Db, shipment: Id, pick: Pick, today: Date)
    requires SalesInv(d) && pick.quantity >= 1 && ShipRow(d, shipment, pick, today).Row?
    requires shipment < |d.shipments|
    requires d.shipments[shipment] == Shipment(d.lines[pick.line].order, d.lines[pick.line].sku.warehouse)
    ensures SalesInv(ShipRow(d, shipment, pick, today).db)
  {
    var d' := ShipRow(d, shipment, pick, today).db;
    assert ShippedRow(d, d', pick.line, pick.quantity);
    ShipRowCharges(d, shipment, pick, today);
    ShippedEntries(d, d', pick.line, pick.quantity);
    ShippedReturns(d, d', pick.line, pick.quantity);
    ShippedCredits(d, d', pick.line, pick.quantity);
    ShippedFlows(d, d', pick.line, pick.quantity);
  }

  lemma {:induction false} ShipFromSales(d: Db, shipment: Id, picks: seq<Pick>, today: Date, n: nat, quantity: int)
    requires SalesInv(d) && shipment < |d.shipments|
    requires forall m | 0 <= m < |picks| ::
               && picks[m].quantity >= 1 && picks[m].line < |d.lines|
               && d.shipments[shipment] == Shipment(d.lines[picks[m].line].order, d.lines[picks[m].line].sku.warehouse)
    ensures var row := ShipFrom(d, shipment, picks, today, n, quantity); row.Row? ==> SalesInv(row.db)
    decreases |picks| - n
  {
    if n < |picks| {
      match ShipRow(d, shipment, picks[n], today)
      case Stop(_) =>
      case Row(d', moved) =>
        ShipRowSales(d, shipment, picks[n], today);
        ShipFromSales(d', shipment, picks, today, n + 1, quantity + moved);
    }
  }

  /** A new shipment head changes nothing the invariant looks at. */
  lemma HeadAdded(d: Db, head: Shipment)
    requires SalesInv(d)
    ensures SalesInv(d.(shipments := d.shipments + [head]))
  {
    var d' := d.(shipments := d.shipments + [head]);
    forall s: Id | s < |d.shipmentLines| ensures SentOk(d', s) && CustomerOf(d', s) == CustomerOf(d, s) {
      assert SentOk(d, s);
    }
    forall i: Id ensures ChargedOk(d', i) {
      assert ChargedOk(d, i);
    }
    forall x: Id | x < |d.entries| ensures EntryOk(d', x) {
      assert EntryOk(d, x);
    }
    HeadAddedReturns(d, d');
    forall s: Id ensures CreditedOk(d', s) {
      assert CreditedOk(d, s);
    }
    forall k ensures FlowOk(d', k) {
      assert FlowOk(d, k);
    }
  }

  lemma HeadAddedReturns(d: Db, d': Db)
    requires ReturnsOk(d) && InspectionsOk(d)
    requires d' == d.(shipments := d'.shipments)
    requires forall s: Id | s < |d.shipmentLines| && SentOk(d, s) :: SentOk(d', s)
    ensures ReturnsOk(d') && InspectionsOk(d')
  {
    forall r: Id | r < |d.returnLines| ensures ReturnLineOk(d', r) {
      assert ReturnLineOk(d, r);
    }
    forall s: Id ensures AskedOk(d', s) {
      assert AskedOk(d, s);
    }
    forall n: Id | n < |d.inspections| ensures InspectionOk(d', n) {
      assert InspectionOk(d, n);
    }
    forall r: Id ensures TalliedOk(d', r) {
      assert TalliedOk(d, r);
    }
  }

  lemma ShipSales(d: Db, actor: Id, picks: seq<Pick>, today: Date)
    requires SalesInv(d)
    ensures var out := Ship(d, actor, picks, today); out.Done? ==> SalesInv(out.db)
  {
    var out := Ship(d, actor, picks, today);
    if out.Done? {
      assert Shippable(d, picks[0].line);
      var o, warehouse := d.lines[picks[0].line].order, d.lines[picks[0].line].sku.warehouse;
      var claimed := Assign(d, o, Some(actor));
      QuietKeeps(d, claimed);
      HeadAdded(claimed, Shipment(o, warehouse));
      var started := claimed.(shipments := d.shipments + [Shipment(o, warehouse)]);
      ShipFromSales(started, |d.shipments|, picks, today, 0, 0);
      QuietKeeps(ShipFrom(started, |d.shipments|, picks, today, 0, 0).db, out.db);
    }
  }
}
