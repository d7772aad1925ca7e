/** Picking, inspecting, shipping and receiving, stated without their loops: when they succeed, what they leave, and
    what the caller is told. */
module WarehouseEffects {
  import opened Wrappers
  import opened Tables
  import opened Sums
  import opened Totals
  import opened StockInvariant
  import opened OrderService
  import OrderInvariant
  import DeadGuards
  import CatalogService

  /** The picks name different lines. */
  ghost predicate DistinctPicks(picks: seq<Pick>) {
    forall m, n | 0 <= m < n < |picks| :: picks[m].line != picks[n].line
  }

  /** From pick `n` on, exactly the picked lines are rewritten, each by its own quantity. */
  ghost predicate PickedLines(lines: seq<Line>, lines': seq<Line>, picks: seq<Pick>, n: nat,
                              rewrite: (Line, int) -> Line) {
    && |lines'| == |lines|
    && (forall m: Id | n <= m < |picks| && picks[m].line < |lines| ::
          lines'[picks[m].line] == rewrite(lines[picks[m].line], picks[m].quantity))
    && (forall j: Id | j < |lines| && (forall m: Id | n <= m < |picks| :: picks[m].line != j) :: lines'[j] == lines[j])
  }

  /** One picked line rewritten, then the rest, is all of them rewritten. */
  lemma PickedFirst(lines: seq<Line>, lines': seq<Line>, picks: seq<Pick>, n: nat, rewrite: (Line, int) -> Line)
    requires DistinctPicks(picks) && n < |picks| && picks[n].line < |lines|
    requires PickedLines(lines[picks[n].line := rewrite(lines[picks[n].line], picks[n].quantity)], lines', picks,
                         n + 1, rewrite)
    ensures PickedLines(lines, lines', picks, n, rewrite)
  {
  }

  // ---------- picking and inspecting ----------

  function AsWorked(stage: Stage): (Line, int) -> Line {
    (l: Line, quantity: int) =>
      match l.reservation
      case None => l
      case Some(r) => l.(reservation := Some(if stage == PickStage then r.(picked := quantity)
          else r.(inspected := quantity)))
  }

  /** Picked units are still open and cover the inspected ones; inspected units were picked. */
  predicate WorkFits(d: Db, o: Id, stage: Stage, pick: Pick) {
    && pick.line < |d.lines| && d.lines[pick.line].order == o && IsActive(d.lines[pick.line])
    && !UnderCount(d.counts, d.lines[pick.line].sku)
    && (stage == PickStage ==> InspectedOf(d.lines[pick.line]) <= pick.quantity <= Open(d.lines[pick.line]))
    && (stage == InspectStage ==> pick.quantity <= Picked(d.lines[pick.line]))
  }

  predicate WorkLine(d: Db, pick: Pick)
  {
    pick.line < |d.lines| && IsActive(d.lines[pick.line]) ==> Picked(d.lines[pick.line]) <= Open(d.lines[pick.line])
  }

  lemma WorkRowExact(d: Db, o: Id, stage: Stage, pick: Pick)
    requires WorkLine(d, pick)
    ensures WorkRowStep(d, o, stage, pick).Row? <==> WorkFits(d, o, stage, pick)
    ensures WorkFits(d, o, stage, pick) ==>
              WorkRowStep(d, o, stage, pick).db ==
                d.(lines := d.lines[pick.line := AsWorked(stage)(d.lines[pick.line], pick.quantity)])
  {
  }

  ghost predicate AllWorkFits(d: Db, o: Id, stage: Stage, picks: seq<Pick>, n: nat) {
    forall m: Id | n <= m < |picks| :: WorkFits(d, o, stage, picks[m])
  }

  ghost predicate AllWorkLines(d: Db, picks: seq<Pick>, n: nat) {
    forall m: Id | n <= m < |picks| :: WorkLine(d, picks[m])
  }

  lemma WorkRowLeaves(d: Db, o: Id, stage: Stage, picks: seq<Pick>, n: nat)
    requires DistinctPicks(picks) && AllWorkLines(d, picks, n) && n < |picks| && WorkFits(d, o, stage, picks[n])
    ensures WorkRowStep(d, o, stage, picks[n]).Row?
    ensures var d' := WorkRowStep(d, o, stage, picks[n]).db;
            && d'.lines == d.lines[picks[n].line := AsWorked(stage)(d.lines[picks[n].line], picks[n].quantity)]
            && AllWorkLines(d', picks, n + 1)
            && (AllWorkFits(d', o, stage, picks, n + 1) <==> AllWorkFits(d, o, stage, picks, n + 1))
  {
    WorkRowExact(d, o, stage, picks[n]);
    var d' := WorkRowStep(d, o, stage, picks[n]).db;
    forall m: Id | n < m < |picks|
      ensures WorkLine(d', picks[m]) && (WorkFits(d', o, stage, picks[m]) <==> WorkFits(d, o, stage, picks[m]))
    {
      assert picks[m].line != picks[n].line;
      assert picks[m].line < |d.lines| ==> d'.lines[picks[m].line] == d.lines[picks[m].line];
    }
  }

  lemma {:induction false} WorkFromExact(d: Db, o: Id, stage: Stage, picks: seq<Pick>, n: nat, rows: seq<WorkRow>)
    requires DistinctPicks(picks) && AllWorkLines(d, picks, n)
    ensures var out := WorkFrom(d, o, stage, picks, n, rows);
            && (out.Done? <==> AllWorkFits(d, o, stage, picks, n))
            && (out.Done? ==> PickedLines(d.lines, out.db.lines, picks, n, AsWorked(stage)))
    decreases |picks| - n
  {
    if n < |picks| {
      WorkRowExact(d, o, stage, picks[n]);
      if WorkFits(d, o, stage, picks[n]) {
        WorkRowLeaves(d, o, stage, picks, n);
        var d' := WorkRowStep(d, o, stage, picks[n]).db;
        var l := d'.lines[picks[n].line];
        var rows' := rows + [WorkRow(picks[n].line, Picked(l), InspectedOf(l))];
        WorkFromExact(d', o, stage, picks, n + 1, rows');
        if AllWorkFits(d, o, stage, picks, n + 1) {
          PickedFirst(d.lines, WorkFrom(d', o, stage, picks, n + 1, rows').db.lines, picks, n, AsWorked(stage));
        }
      }
    }
  }

  /** One reply row per pick, in their order, with the quantities the line ends with. */
  lemma {:induction false} WorkFromReply(d: Db, o: Id, stage: Stage, picks: seq<Pick>, n: nat, rows: seq<WorkRow>)
    requires DistinctPicks(picks) && |rows| == n <= |picks|
    requires WorkFrom(d, o, stage, picks, n, rows).Done?
    ensures var out := WorkFrom(d, o, stage, picks, n, rows);
            && out.db == d.(lines := out.db.lines)
            && out.reply.WorkRecorded? && out.reply.order == o && out.reply.stage == stage
            && |out.db.lines| == |d.lines| && |out.reply.rows| == |picks|
            && out.reply.rows[..n] == rows
            && (forall j: Id | j < |d.lines| && (forall m: Id | n <= m < |picks| :: picks[m].line != j) ::
                out.db.lines[j] == d.lines[j])
            && forall m: Id | n <= m < |picks| ::
                 && picks[m].line < |out.db.lines|
                 && out.reply.rows[m] ==
                      WorkRow(picks[m].line, Picked(out.db.lines[picks[m].line]),
                              InspectedOf(out.db.lines[picks[m].line]))
    decreases |picks| - n
  {
    if n < |picks| {
      var d' := WorkRowStep(d, o, stage, picks[n]).db;
      var l := d'.lines[picks[n].line];
      var rows' := rows + [WorkRow(picks[n].line, Picked(l), InspectedOf(l))];
      WorkFromReply(d', o, stage, picks, n + 1, rows');
      var out := WorkFrom(d', o, stage, picks, n + 1, rows');
      assert out.reply.rows[..n] == out.reply.rows[..n + 1][..n];
      assert out.reply.rows[n] == out.reply.rows[..n + 1][n];
    }
  }

  /** The reply has a row per pick, in their order, with the work the line ends with. */
  ghost predicate WorkReported(lines': seq<Line>, picks: seq<Pick>, rows: seq<WorkRow>) {
    && |rows| == |picks|
    && forall m: Id | m < |picks| ::
         && picks[m].line < |lines'|
         && rows[m] == WorkRow(picks[m].line, Picked(lines'[picks[m].line]), InspectedOf(lines'[picks[m].line]))
  }

  /** Work is recorded exactly when the worker holds the order, nobody asked to cancel it, and every quantity fits;
      then the named quantities are set, and no other, and reported as they are. */
  lemma SetWorkExact(d: Db, actor: Id, o: Id, stage: Stage, picks: seq<Pick>)
    requires StockInv(d)
    ensures var out := SetWork(d, actor, o, stage, picks);
            && (out.Done? <==>
                  && PicksValid(picks, 0) && o < |d.orders| && d.orders[o].status == Confirmed
                  && d.orders[o].assignee == Some(actor) && !HasPending(d.cancelRequests, o)
                  && AllWorkFits(d, o, stage, picks, 0))
            && (out.Done? ==>
                  && out.db == d.(lines := out.db.lines)
                  && PickedLines(d.lines, out.db.lines, picks, 0, AsWorked(stage))
                  && out.reply.WorkRecorded? && out.reply == WorkRecorded(o, stage, out.reply.rows)
                  && WorkReported(out.db.lines, picks, out.reply.rows))
  {
    if PicksValid(picks, 0) {
      forall m: Id | m < |picks| ensures WorkLine(d, picks[m]) {
        if picks[m].line < |d.lines| {
          assert LineOk(d.orders, d.lines[picks[m].line]);
        }
      }
      WorkFromExact(d, o, stage, picks, 0, []);
      if WorkFrom(d, o, stage, picks, 0, []).Done? {
        WorkFromReply(d, o, stage, picks, 0, []);
      }
    }
  }

  // ---------- shipping ----------

  function AsSent(): (Line, int) -> Line {
    (l: Line, quantity: int) =>
      match l.reservation
      case None => l
      case Some(r) =>
        l.(reservation := Some(r.(shipped := r.shipped + quantity, picked := r.picked - quantity,
                                  inspected := r.inspected - quantity,
                                  status := if r.shipped + quantity == r.quantity then Fulfilled else Active)))
  }

  /** The units were inspected, which takes in that they are reserved, and no count is going on. */
  predicate ShipFits(d: Db, pick: Pick) {
    && Shippable(d, pick.line)
    && pick.quantity <= InspectedOf(d.lines[pick.line])
    && !UnderCount(d.counts, d.lines[pick.line].sku)
  }

  ghost predicate AllShipFits(d: Db, picks: seq<Pick>, n: nat) {
    forall m: Id | n <= m < |picks| :: ShipFits(d, picks[m])
  }

  lemma ShipRowExact(d: Db, shipment: Id, pick: Pick, today: Date)
    requires StockInv(d)
    ensures ShipRow(d, shipment, pick, today).Row? <==> ShipFits(d, pick)
    ensures ShipFits(d, pick) ==>
              var row := ShipRow(d, shipment, pick, today);
              && row.db.lines == d.lines[pick.line := AsSent()(d.lines[pick.line], pick.quantity)]
              && row.db.shipmentLines == d.shipmentLines
                  + [ShipmentLine(shipment, pick.line, pick.quantity, |d.entries|)]
              && |row.db.entries| == |d.entries| + 1
              && row.db.orders == d.orders && row.db.counts == d.counts && row.db.cancelRequests == d.cancelRequests
              && row.moved == pick.quantity
  {
    DeadGuards.ShipRowCovered(d, shipment, pick, today);
    if Shippable(d, pick.line) {
      assert LineOk(d.orders, d.lines[pick.line]);
    }
  }

  function PickQuantity(): Pick -> int {
    (p: Pick) => p.quantity
  }

  /** The shipping loop may go on from here. */
  ghost predicate Shipping(d: Db, o: Id, picks: seq<Pick>) {
    StockInv(d) && DistinctPicks(picks) && OrderInvariant.PicksOf(d, o, picks)
  }

  lemma ShipRowLeaves(d: Db, shipment: Id, o: Id, picks: seq<Pick>, today: Date, n: Id)
    requires Shipping(d, o, picks) && n < |picks| && ShipFits(d, picks[n])
    ensures ShipRow(d, shipment, picks[n], today).Row?
    ensures var d' := ShipRow(d, shipment, picks[n], today).db;
            && Shipping(d', o, picks)
            && d'.lines == d.lines[picks[n].line := AsSent()(d.lines[picks[n].line], picks[n].quantity)]
            && (AllShipFits(d', picks, n + 1) <==> AllShipFits(d, picks, n + 1))
  {
    ShipRowExact(d, shipment, picks[n], today);
    OrderInvariant.ShipRowKeeps(d, shipment, picks[n], today);
    var d' := ShipRow(d, shipment, picks[n], today).db;
    forall m: Id | n < m < |picks| ensures ShipFits(d', picks[m]) <==> ShipFits(d, picks[m]) {
      assert d'.lines[picks[m].line] == d.lines[picks[m].line];
    }
  }

  lemma {:induction false} ShipFromSucceeds(d: Db, shipment: Id, o: Id, picks: seq<Pick>, today: Date, n: nat,
                                            quantity: int)
    requires Shipping(d, o, picks)
    ensures ShipFrom(d, shipment, picks, today, n, quantity).Row? <==> AllShipFits(d, picks, n)
    decreases |picks| - n
  {
    if n < |picks| {
      ShipRowExact(d, shipment, picks[n], today);
      if ShipFits(d, picks[n]) {
        ShipRowLeaves(d, shipment, o, picks, today, n);
        ShipFromSucceeds(ShipRow(d, shipment, picks[n], today).db, shipment, o, picks, today, n + 1,
                         quantity + picks[n].quantity);
      }
    }
  }

  /** The lines of the first `n` picks are rewritten, no others. */
  ghost predicate PickedUpTo(lines: seq<Line>, lines': seq<Line>, picks: seq<Pick>, n: nat,
                             rewrite: (Line, int) -> Line) {
    && |lines'| == |lines| && n <= |picks|
    && (forall m: Id | m < n && picks[m].line < |lines| ::
          lines'[picks[m].line] == rewrite(lines[picks[m].line], picks[m].quantity))
    && (forall j: Id | j < |lines| && (forall m: Id | m < n :: picks[m].line != j) :: lines'[j] == lines[j])
  }

  /** The shipping loop has come to pick `n`. */
  ghost predicate SentUpTo(lines: seq<Line>, d: Db, o: Id, picks: seq<Pick>, n: nat) {
    Shipping(d, o, picks) && PickedUpTo(lines, d.lines, picks, n, AsSent())
  }

  lemma SentNext(lines: seq<Line>, d: Db, shipment: Id, o: Id, picks: seq<Pick>, today: Date, n: nat)
    requires SentUpTo(lines, d, o, picks, n) && n < |picks| && ShipRow(d, shipment, picks[n], today).Row?
    ensures SentUpTo(lines, ShipRow(d, shipment, picks[n], today).db, o, picks, n + 1)
  {
    ShipRowExact(d, shipment, picks[n], today);
    ShipRowLeaves(d, shipment, o, picks, today, n);
    assert d.lines[picks[n].line] == lines[picks[n].line];
  }

  lemma ShipFromLines(d: Db, shipment: Id, o: Id, picks: seq<Pick>, today: Date)
    requires Shipping(d, o, picks) && ShipFrom(d, shipment, picks, today, 0, 0).Row?
    ensures PickedLines(d.lines, ShipFrom(d, shipment, picks, today, 0, 0).db.lines, picks, 0, AsSent())
  {
    var kept := (e: Db, m: nat) => SentUpTo(d.lines, e, o, picks, m);
    forall e: Db, m: nat | kept(e, m) && m < |picks|
      ensures OrderInvariant.RowKeeps(kept, {}, e, shipment, picks, today, m)
    {
      if ShipRow(e, shipment, picks[m], today).Row? {
        SentNext(d.lines, e, shipment, o, picks, today, m);
      }
    }
    assert kept(d, 0);
    OrderInvariant.ShipFromPreserves(kept, {}, d, shipment, picks, today, 0, 0);
  }

  /** One shipment line per pick from `n` on, in their order, each with the next ledger entry. */
  function NewRows(shipment: Id, picks: seq<Pick>, n: nat, entry: Id): seq<ShipmentLine>
    decreases |picks| - n
  {
    if n >= |picks| then []
    else [ShipmentLine(shipment, picks[n].line, picks[n].quantity, entry)] + NewRows(shipment, picks, n + 1, entry + 1)
  }

  lemma {:induction false} ShipFromRows(d: Db, shipment: Id, o: Id, picks: seq<Pick>, today: Date, n: nat,
                                        quantity: int)
    requires Shipping(d, o, picks)
    requires ShipFrom(d, shipment, picks, today, n, quantity).Row?
    ensures ShipFrom(d, shipment, picks, today, n, quantity).db.shipmentLines ==
              d.shipmentLines + NewRows(shipment, picks, n, |d.entries|)
    decreases |picks| - n
  {
    if n < |picks| {
      ShipRowExact(d, shipment, picks[n], today);
      ShipRowLeaves(d, shipment, o, picks, today, n);
      ShipFromRows(ShipRow(d, shipment, picks[n], today).db, shipment, o, picks, today, n + 1,
                   quantity + picks[n].quantity);
    }
  }

  lemma {:induction false} ShipFromQuantity(d: Db, shipment: Id, picks: seq<Pick>, today: Date, n: nat, quantity: int)
    requires ShipFrom(d, shipment, picks, today, n, quantity).Row? && n <= |picks|
    ensures quantity + Sum(picks, PickQuantity()) ==
              ShipFrom(d, shipment, picks, today, n, quantity).moved + Sum(picks[..n], PickQuantity())
    decreases |picks| - n
  {
    if n < |picks| {
      var row := ShipRow(d, shipment, picks[n], today);
      ShipFromQuantity(row.db, shipment, picks, today, n + 1, quantity + row.moved);
      assert picks[..n + 1] == picks[..n] + [picks[n]];
      SumAppend(picks[..n], picks[n], PickQuantity());
    } else {
      assert picks[..n] == picks;
    }
  }

  /** The picks are of one order and warehouse. */
  ghost predicate Uniform(d: Db, picks: seq<Pick>) {
    && picks != [] && Shippable(d, picks[0].line)
    && forall m: Id | m < |picks| ::
      && Shippable(d, picks[m].line)
      && d.lines[picks[m].line].order == d.lines[picks[0].line].order
      && d.lines[picks[m].line].sku.warehouse == d.lines[picks[0].line].sku.warehouse
  }

  /** The order's worker is the caller or nobody, and nobody asked to cancel the order. */
  predicate MayWork(d: Db, actor: Id, o: Id)
    requires o < |d.orders|
  {
    (d.orders[o].assignee == None || d.orders[o].assignee == Some(actor)) && !HasPending(d.cancelRequests, o)
  }

  ghost predicate MayShip(d: Db, actor: Id, picks: seq<Pick>) {
    && PicksValid(picks, 1) && AllShipFits(d, picks, 0)
    && Uniform(d, picks) && MayWork(d, actor, d.lines[picks[0].line].order)
  }

  function Started(d: Db, actor: Id, picks: seq<Pick>): Db
    requires picks != [] && Shippable(d, picks[0].line)
  {
    var l := d.lines[picks[0].line];
    Assign(d, l.order, Some(actor)).(shipments := d.shipments + [Shipment(l.order, l.sku.warehouse)])
  }

  lemma StartedLeaves(d: Db, actor: Id, picks: seq<Pick>)
    requires StockInv(d) && PicksValid(picks, 1) && Uniform(d, picks) && MayWork(d, actor, d.lines[picks[0].line].order)
    ensures var d' := Started(d, actor, picks);
            && StockInv(d') && OrderInvariant.PicksOf(d', d.lines[picks[0].line].order, picks) && DistinctPicks(picks)
            && (AllShipFits(d', picks, 0) <==> AllShipFits(d, picks, 0))
  {
    assert LineOk(d.orders, d.lines[picks[0].line]);
    OrderInvariant.AssignKeeps(d, d.lines[picks[0].line].order, Some(actor));
    var d' := Started(d, actor, picks);
    assert StockInv(d');
    forall m: Id | m < |picks| ensures ShipFits(d', picks[m]) <==> ShipFits(d, picks[m]) {
    }
  }

  /** A shipment is created exactly when its reservations are of one order and warehouse, no other worker holds the
      order, nobody asked to cancel it, and every quantity was inspected and is not being counted. */
  lemma ShipSucceeds(d: Db, actor: Id, picks: seq<Pick>, today: Date)
    requires StockInv(d)
    ensures OrderService.Ship(d, actor, picks, today).Done? <==> MayShip(d, actor, picks)
  {
    if PicksValid(picks, 1) && Uniform(d, picks) && MayWork(d, actor, d.lines[picks[0].line].order) {
      StartedLeaves(d, actor, picks);
      ShipFromSucceeds(Started(d, actor, picks), |d.shipments|, d.lines[picks[0].line].order, picks, today, 0, 0);
    }
  }

  /** A shipment that succeeds is its loop, and the choice of who has the order then. */
  lemma ShipIs(d: Db, actor: Id, picks: seq<Pick>, today: Date)
    requires StockInv(d) && OrderService.Ship(d, actor, picks, today).Done?
    ensures picks != [] && Shippable(d, picks[0].line)
    ensures ShipFrom(Started(d, actor, picks), |d.shipments|, picks, today, 0, 0).Row?
    ensures var d' := ShipFrom(Started(d, actor, picks), |d.shipments|, picks, today, 0, 0).db;
            var o := d.lines[picks[0].line].order;
            && d'.orders == Started(d, actor, picks).orders && d'.shipments == Started(d, actor, picks).shipments
            && OrderService.Ship(d, actor, picks, today) ==
                 Done(if HasOpenLine(d'.lines, o) then d' else Assign(d', o, None),
                      ShipmentCreated(|d.shipments|,
                                      ShipFrom(Started(d, actor, picks), |d.shipments|, picks, today, 0, 0).moved))
  {
    ShipSucceeds(d, actor, picks, today);
    assert OnlySales(Started(d, actor, picks),
                     ShipFrom(Started(d, actor, picks), |d.shipments|, picks, today, 0, 0).db);
  }

  lemma ShipStarts(d: Db, actor: Id, picks: seq<Pick>, today: Date)
    requires StockInv(d) && OrderService.Ship(d, actor, picks, today).Done?
    ensures picks != [] && Shippable(d, picks[0].line)
    ensures var d' := Started(d, actor, picks);
            && Shipping(d', d.lines[picks[0].line].order, picks)
            && d'.lines == d.lines && d'.shipmentLines == d.shipmentLines && d'.entries == d.entries
  {
    ShipSucceeds(d, actor, picks, today);
    StartedLeaves(d, actor, picks);
  }

  lemma ShipFromParts(d: Db, shipment: Id, o: Id, picks: seq<Pick>, today: Date)
    requires Shipping(d, o, picks) && ShipFrom(d, shipment, picks, today, 0, 0).Row?
    ensures var row := ShipFrom(d, shipment, picks, today, 0, 0);
            && PickedLines(d.lines, row.db.lines, picks, 0, AsSent())
            && row.db.shipmentLines == d.shipmentLines + NewRows(shipment, picks, 0, |d.entries|)
            && row.moved == Sum(picks, PickQuantity())
  {
    ShipFromLines(d, shipment, o, picks, today);
    ShipFromRows(d, shipment, o, picks, today, 0, 0);
    ShipFromQuantity(d, shipment, picks, today, 0, 0);
    assert picks[..0] == [];
  }

  /** A shipment sends exactly the picked quantities, one shipment line per pick, and reports their total. */
  lemma ShipExact(d: Db, actor: Id, picks: seq<Pick>, today: Date)
    requires StockInv(d) && OrderService.Ship(d, actor, picks, today).Done?
    ensures var out := OrderService.Ship(d, actor, picks, today);
            && PickedLines(d.lines, out.db.lines, picks, 0, AsSent())
            && out.db.shipmentLines == d.shipmentLines + NewRows(|d.shipments|, picks, 0, |d.entries|)
            && out.reply == ShipmentCreated(|d.shipments|, Sum(picks, PickQuantity()))
  {
    ShipIs(d, actor, picks, today);
    ShipStarts(d, actor, picks, today);
    ShipFromParts(Started(d, actor, picks), |d.shipments|, d.lines[picks[0].line].order, picks, today);
  }

  // ---------- receiving ----------

  function QuantityAt(warehouse: Id, k: Sku): ReceiptRow -> int {
    (r: ReceiptRow) => if Sku(warehouse, r.product) == k then r.quantity else 0
  }

  ghost predicate ReceiptFits(d: Db, warehouse: Id, rows: seq<ReceiptRow>, n: nat) {
    && (forall m: Id | n <= m < |rows| ::
          rows[m].quantity >= 1 && rows[m].known && !UnderCount(d.counts, Sku(warehouse, rows[m].product)))
    && (forall l: Id, m: Id | l < m < |rows| && n <= m :: rows[l].product != rows[m].product)
  }

  lemma {:induction false} ReceiveFromSucceeds(d: Db, warehouse: Id, rows: seq<ReceiptRow>, n: nat)
    ensures CatalogService.ReceiveFrom(d, warehouse, rows, n).Done? <==> ReceiptFits(d, warehouse, rows, n)
    decreases |rows| - n
  {
    if n < |rows| {
      assert CatalogService.Repeated(rows, n) <==> exists m: Id :: m < n && rows[m].product == rows[n].product;
      match CatalogService.ReceiveRow(d, warehouse, rows[n], CatalogService.Repeated(rows, n))
      case Stop(_) =>
      case Row(d', _) => ReceiveFromSucceeds(d', warehouse, rows, n + 1);
    }
  }

  lemma {:induction false} ReceiveFromAdds(d: Db, warehouse: Id, rows: seq<ReceiptRow>, n: nat, k: Sku)
    requires n <= |rows| && CatalogService.ReceiveFrom(d, warehouse, rows, n).Done?
    ensures var balances' := CatalogService.ReceiveFrom(d, warehouse, rows, n).db.balances;
            && BalanceOf(balances', k).reserved == BalanceOf(d.balances, k).reserved
            && BalanceOf(balances', k).onHand + Sum(rows[..n], QuantityAt(warehouse, k)) ==
                 BalanceOf(d.balances, k).onHand + Sum(rows, QuantityAt(warehouse, k))
    decreases |rows| - n
  {
    if n < |rows| {
      assert rows[..n + 1] == rows[..n] + [rows[n]];
      SumAppend(rows[..n], rows[n], QuantityAt(warehouse, k));
      ReceiveFromAdds(CatalogService.ReceiveRow(d, warehouse, rows[n], CatalogService.Repeated(rows, n)).db, warehouse,
                      rows, n + 1, k);
    } else {
      assert rows[..n] == rows;
    }
  }

  /** The rows from `n` on are booked as received, in their order. */
  lemma {:induction false} ReceiveFromBooks(d: Db, warehouse: Id, rows: seq<ReceiptRow>, n: nat)
    requires n <= |rows| && CatalogService.ReceiveFrom(d, warehouse, rows, n).Done?
    ensures var d' := CatalogService.ReceiveFrom(d, warehouse, rows, n).db;
            && d' == d.(balances := d'.balances, movements := d'.movements)
            && |d'.movements| + n == |d.movements| + |rows| && d'.movements[..|d.movements|] == d.movements
            && forall m: Id | n <= m < |rows| ::
                 d'.movements[|d.movements| + m - n] ==
                   Movement(Sku(warehouse, rows[m].product), Received, rows[m].quantity)
    decreases |rows| - n
  {
    if n < |rows| {
      var e := CatalogService.ReceiveRow(d, warehouse, rows[n], CatalogService.Repeated(rows, n)).db;
      ReceiveFromBooks(e, warehouse, rows, n + 1);
      var d' := CatalogService.ReceiveFrom(e, warehouse, rows, n + 1).db;
      assert d'.movements[..|d.movements|] == d'.movements[..|e.movements|][..|d.movements|];
      assert d'.movements[|d.movements|] == d'.movements[..|e.movements|][|d.movements|];
    }
  }

  /** A receipt is booked exactly when it has rows, its parties are known, and every row is a known product, once,
      with a positive quantity, and not being counted; then each SKU's stock grows by its row, each row is booked as
      received, and nothing is reserved or freed. */
  lemma ReceiveExact(d: Db, partiesKnown: bool, warehouse: Id, rows: seq<ReceiptRow>, k: Sku)
    ensures var out := CatalogService.Receive(d, partiesKnown, warehouse, rows);
            && (out.Done? <==> rows != [] && partiesKnown && ReceiptFits(d, warehouse, rows, 0))
            && (out.Done? ==>
                  && BalanceOf(out.db.balances, k) ==
                       Balance(BalanceOf(d.balances, k).onHand + Sum(rows, QuantityAt(warehouse, k)),
                               BalanceOf(d.balances, k).reserved)
                  && out.db == d.(balances := out.db.balances, movements := out.db.movements)
                  && |out.db.movements| == |d.movements| + |rows|
                  && out.db.movements[..|d.movements|] == d.movements
                  && forall m: Id | m < |rows| ::
                       out.db.movements[|d.movements| + m] ==
                         Movement(Sku(warehouse, rows[m].product), Received, rows[m].quantity))
  {
    ReceiveFromSucceeds(d, warehouse, rows, 0);
    if CatalogService.ReceiveFrom(d, warehouse, rows, 0).Done? {
      ReceiveFromAdds(d, warehouse, rows, 0, k);
      ReceiveFromBooks(d, warehouse, rows, 0);
    }
  }

  /** A correction is booked exactly when the SKU has a balance, is not being counted, and keeps at least what is
      reserved; then its stock, and no other's, changes by the difference. */
  lemma AdjustExact(d: Db, k: Sku, delta: int, x: Sku)
    requires StockInv(d)
    ensures var out := CatalogService.Adjust(d, k, delta);
            && (out.Done? <==>
                  && delta != 0 && k in d.balances && !UnderCount(d.counts, k)
                  && Sum(d.lines, OpenAt(k)) <= Sum(d.movements, DeltaAt(k)) + delta)
            && (out.Done? ==>
                  && BalanceOf(out.db.balances, x) ==
                       Balance(BalanceOf(d.balances, x).onHand + (if x == k then delta else 0),
                               BalanceOf(d.balances, x).reserved)
                  && out.db == d.(balances := out.db.balances,
                                  movements := d.movements + [Movement(k, Adjusted, delta)])
                  && out.reply == StockAdjusted(delta, BalanceOf(out.db.balances, k)))
  {
    assert BalanceOk(d.balances, d.lines, d.movements, k);
  }
}
