/** Two conditions of the repository's integrity queries that healthy databases do not meet: concrete runs that raise
    them, and exactly which commands do. */
module FalseAlarms {
  import opened Wrappers
  import opened Tables
  import opened Sums
  import opened Totals
  import opened StockInvariant
  import opened OrderService
  import opened ReservationEffects
  import opened WarehouseEffects
  import opened Commands
  import opened Invariant
  import opened CancellationSafety
  import StockCountService
  import StockCountGreedy
  import CatalogService

  // ---------- finalized counts against what is reserved now ----------

  /** The query's condition on a finalized count: it found at least what is reserved of its SKU. */
  predicate CountCovers(d: Db, c: Id) {
    c < |d.counts| && d.counts[c].status == Counted ==> d.counts[c].result >= Sum(d.lines, OpenAt(d.counts[c].sku))
  }

  predicate Takes(op: Op) {
    op.ConfirmOrder? || op.AllocateOrder?
  }

  function TakenAt(d: Db, op: Op, k: Sku): Line -> int {
    (l: Line) =>
      if !Takes(op) || l.order != op.order || l.sku != k then 0
      else if op.ConfirmOrder? then Granted(d.balances, l)
      else Added(d.balances, l)
  }

  /** Right after it is finalized, a count covers what is reserved. */
  lemma FinalizedCountCovers(d: Db, c: Id, result: int)
    requires StockInv(d) && StockCountService.Finalize(d, c, result).Done?
    ensures CountCovers(StockCountService.Finalize(d, c, result).db, c)
  {
    StockCountGreedy.LossesMakeUpShortage(d, c, result);
    assert BalanceOk(d.balances, d.lines, d.movements, d.counts[c].sku);
  }

  lemma ConfirmingAdds(d: Db, o: Id, k: Sku)
    requires StockInv(d) && Confirm(d, o).Done?
    ensures Sum(Confirm(d, o).db.lines, OpenAt(k)) ==
              Sum(d.lines, OpenAt(k)) + Sum(d.lines, TakenAt(d, ConfirmOrder(o), k))
  {
    ConfirmExact(d, o);
    TakenAdds(d.lines, Confirm(d, o).db.lines, k, TakenAt(d, ConfirmOrder(o), k));
  }

  lemma AllocatingAdds(d: Db, o: Id, k: Sku)
    requires StockInv(d) && Allocate(d, o).Done?
    ensures Sum(Allocate(d, o).db.lines, OpenAt(k)) ==
              Sum(d.lines, OpenAt(k)) + Sum(d.lines, TakenAt(d, AllocateOrder(o), k))
  {
    AllocateExact(d, o);
    forall i: Id | i < |d.lines| ensures LineOk(d.orders, d.lines[i]) {
    }
    TakenAdds(d.lines, Allocate(d, o).db.lines, k, TakenAt(d, AllocateOrder(o), k));
  }

  lemma TakenAdds(lines: seq<Line>, lines': seq<Line>, k: Sku, taken: Line -> int)
    requires |lines'| == |lines|
    requires forall i: Id | i < |lines| :: OpenAt(k)(lines'[i]) == OpenAt(k)(lines[i]) + taken(lines[i])
    ensures Sum(lines', OpenAt(k)) == Sum(lines, OpenAt(k)) + Sum(lines, taken)
  {
    var more := (l: Line) => OpenAt(k)(l) + taken(l);
    SumEqual(lines', OpenAt(k), lines, more);
    SumSplit(lines, more, OpenAt(k), taken);
  }

  lemma TakingAdds(d: Db, actor: Id, op: Op, k: Sku)
    requires StockInv(d) && Takes(op) && Apply(d, actor, op).Done?
    ensures Sum(Apply(d, actor, op).db.lines, OpenAt(k)) == Sum(d.lines, OpenAt(k)) + Sum(d.lines, TakenAt(d, op, k))
  {
    if op.ConfirmOrder? {
      ConfirmingAdds(d, op.order, k);
    } else {
      AllocatingAdds(d, op.order, k);
    }
  }

  /** Lines may be added, but none holds more than before. */
  ghost predicate NoneHoldsMore(lines: seq<Line>, lines': seq<Line>) {
    && |lines| <= |lines'|
    && (forall i: Id | i < |lines| :: lines'[i].sku == lines[i].sku && Open(lines'[i]) <= Open(lines[i]))
    && (forall i: Id | |lines| <= i < |lines'| :: Open(lines'[i]) == 0)
  }

  lemma HoldsNoMore(lines: seq<Line>, lines': seq<Line>, k: Sku)
    requires NoneHoldsMore(lines, lines')
    ensures Sum(lines', OpenAt(k)) <= Sum(lines, OpenAt(k))
  {
    var before, added := lines'[..|lines|], lines'[|lines|..];
    assert lines' == before + added;
    SumConcat(before, added, OpenAt(k));
    SumZero(added, OpenAt(k));
    SumLeq(before, OpenAt(k), lines, OpenAt(k));
  }

  lemma ShipHoldsNoMore(d: Db, actor: Id, picks: seq<Pick>, today: Date)
    requires StockInv(d) && OrderService.Ship(d, actor, picks, today).Done?
    ensures NoneHoldsMore(d.lines, OrderService.Ship(d, actor, picks, today).db.lines)
  {
    ShipExact(d, actor, picks, today);
    var lines' := OrderService.Ship(d, actor, picks, today).db.lines;
    forall i: Id | i < |d.lines| ensures lines'[i].sku == d.lines[i].sku && Open(lines'[i]) <= Open(d.lines[i]) {
      assert LineOk(d.orders, d.lines[i]);
      if m: Id :| m < |picks| && picks[m].line == i {
        assert lines'[picks[m].line] == AsSent()(d.lines[picks[m].line], picks[m].quantity);
      }
    }
  }

  lemma WorkHoldsNoMore(d: Db, actor: Id, o: Id, stage: Stage, picks: seq<Pick>)
    requires StockInv(d) && OrderService.SetWork(d, actor, o, stage, picks).Done?
    ensures NoneHoldsMore(d.lines, OrderService.SetWork(d, actor, o, stage, picks).db.lines)
    ensures forall i: Id | i < |d.lines| ::
              Open(OrderService.SetWork(d, actor, o, stage, picks).db.lines[i]) == Open(d.lines[i])
  {
    SetWorkExact(d, actor, o, stage, picks);
    var lines' := OrderService.SetWork(d, actor, o, stage, picks).db.lines;
    forall i: Id | i < |d.lines| ensures lines'[i].sku == d.lines[i].sku && Open(lines'[i]) == Open(d.lines[i]) {
      if m: Id :| m < |picks| && picks[m].line == i {
        assert lines'[picks[m].line] == AsWorked(stage)(d.lines[picks[m].line], picks[m].quantity);
      }
    }
  }

  lemma ReleaseHoldsNoMore(d: Db, o: Id)
    requires StockInv(d) && o < |d.orders| && ReleaseOrder(d, o).Row?
    ensures NoneHoldsMore(d.lines, ReleaseOrder(d, o).db.lines)
  {
    ReleaseOrderExact(d, o);
    forall i: Id | i < |d.lines| ensures LineOk(d.orders, d.lines[i]) {
    }
  }

  lemma FinalizeHoldsNoMore(d: Db, c: Id, result: int)
    requires StockInv(d) && StockCountService.Finalize(d, c, result).Done?
    ensures NoneHoldsMore(d.lines, StockCountService.Finalize(d, c, result).db.lines)
  {
    StockCountGreedy.FinalizeExact(d, c, result);
    var k, lines' := d.counts[c].sku, StockCountService.Finalize(d, c, result).db.lines;
    forall i: Id | i < |d.lines| ensures lines'[i].sku == d.lines[i].sku && Open(lines'[i]) <= Open(d.lines[i]) {
      assert LineOk(d.orders, d.lines[i]);
      if StockCountService.Candidate(d, k, i) {
        var loss := StockCountGreedy.Loss(d, k, i, Max(0, d.balances[k].reserved - result));
        assert lines'[i] == StockCountService.CutLine(d.lines[i], loss);
      }
    }
  }

  lemma OthersHoldNoMore(d: Db, actor: Id, op: Op)
    requires StockInv(d) && !Takes(op) && Apply(d, actor, op).Done?
    ensures NoneHoldsMore(d.lines, Apply(d, actor, op).db.lines)
  {
    if op.Ship? {
      ShipHoldsNoMore(d, actor, op.picks, op.today);
    } else if op.SetWork? {
      WorkHoldsNoMore(d, actor, op.order, op.stage, op.picks);
    } else if op.CancelOrder? {
      ReleaseHoldsNoMore(d, op.order);
    } else if op.ReviewCancellation? {
      ReviewHoldsNoMore(d, op.request, op.approve);
    } else if op.FinalizeCount? {
      FinalizeHoldsNoMore(d, op.count, op.result);
    } else if op.ClaimWork? || op.ReleaseWork? || op.RequestCancellation? || op.SubmitOrder? {
      RestHoldsNoMore(d, actor, op);
    } else {
      OtherOpUntouched(d, actor, op);
      SameLinesHoldNoMore(d.lines, Apply(d, actor, op).db.lines);
    }
  }

  lemma ReviewHoldsNoMore(d: Db, q: Id, approve: bool)
    requires StockInv(d) && Review(d, q, approve).Done?
    ensures NoneHoldsMore(d.lines, Review(d, q, approve).db.lines)
  {
    if approve {
      ReleaseHoldsNoMore(d, d.cancelRequests[q].order);
    }
  }

  lemma RestHoldsNoMore(d: Db, actor: Id, op: Op)
    requires Apply(d, actor, op).Done?
    requires op.ClaimWork? || op.ReleaseWork? || op.RequestCancellation? || op.SubmitOrder?
    ensures NoneHoldsMore(d.lines, Apply(d, actor, op).db.lines)
  {
  }

  lemma SameLinesHoldNoMore(lines: seq<Line>, lines': seq<Line>)
    requires lines' == lines
    ensures NoneHoldsMore(lines, lines')
  {
  }

  /** A count that covers what is reserved goes on covering it unless an order takes more than is left of what it
      found: stock received since does not count. */
  lemma CoverageLost(d: Db, actor: Id, op: Op, k: Sku, result: int)
    requires StockInv(d) && Apply(d, actor, op).Done? && result >= Sum(d.lines, OpenAt(k))
    ensures result >= Sum(Apply(d, actor, op).db.lines, OpenAt(k)) <==>
              !Takes(op) || Sum(d.lines, OpenAt(k)) + Sum(d.lines, TakenAt(d, op, k)) <= result
  {
    if Takes(op) {
      TakingAdds(d, actor, op, k);
    } else {
      OthersHoldNoMore(d, actor, op);
      HoldsNoMore(d.lines, Apply(d, actor, op).db.lines, k);
    }
  }

  // ---------- assigned orders without open lines ----------

  /** The query's condition on assignments: an assigned order still has something to ship. */
  ghost predicate AssignedHaveWork(d: Db) {
    forall o: Id | o < |d.orders| && d.orders[o].assignee.Some? :: HasOpenLine(d.lines, o)
  }

  lemma StillOpen(lines: seq<Line>, lines': seq<Line>, o: Id)
    requires HasOpenLine(lines, o) && |lines| <= |lines'|
    requires forall i: Id | i < |lines| && lines[i].order == o && IsActive(lines[i]) && Open(lines[i]) > 0 ::
               lines'[i].order == o && IsActive(lines'[i]) && Open(lines'[i]) > 0
    ensures HasOpenLine(lines', o)
  {
    var i: Id :| i < |lines| && lines[i].order == o && IsActive(lines[i]) && Open(lines[i]) > 0;
    assert lines'[i].order == o;
  }

  lemma AllocateLeavesWork(d: Db, o: Id)
    requires StockInv(d) && AssignedHaveWork(d) && Allocate(d, o).Done?
    ensures var d' := Allocate(d, o).db; o < |d'.orders| && (d'.orders[o].assignee.Some? ==> HasOpenLine(d'.lines, o))
  {
    AllocateExact(d, o);
    if d.orders[o].assignee.Some? {
      forall i: Id | i < |d.lines| ensures LineOk(d.orders, d.lines[i]) {
      }
      StillOpen(d.lines, Allocate(d, o).db.lines, o);
    }
  }

  lemma SetWorkLeavesWork(d: Db, actor: Id, o: Id, stage: Stage, picks: seq<Pick>)
    requires StockInv(d) && AssignedHaveWork(d) && OrderService.SetWork(d, actor, o, stage, picks).Done?
    ensures HasOpenLine(OrderService.SetWork(d, actor, o, stage, picks).db.lines, o)
  {
    WorkHoldsNoMore(d, actor, o, stage, picks);
    var d' := OrderService.SetWork(d, actor, o, stage, picks).db;
    WorkFromTouches(d, o, stage, picks, 0, []);
    forall i: Id | i < |d.lines| && Open(d.lines[i]) > 0 ensures IsActive(d'.lines[i]) {
      assert Open(d'.lines[i]) == Open(d.lines[i]);
    }
    StillOpen(d.lines, d'.lines, o);
  }

  lemma ShipLeavesWork(d: Db, actor: Id, picks: seq<Pick>, today: Date)
    requires OrderService.Ship(d, actor, picks, today).Done?
    ensures Shippable(d, picks[0].line)
    ensures var d', o := OrderService.Ship(d, actor, picks, today).db, d.lines[picks[0].line].order;
            o < |d'.orders| && (d'.orders[o].assignee.Some? ==> HasOpenLine(d'.lines, o))
  {
    assert Shippable(d, picks[0].line);
  }

  /** The order has no worker, or work left. */
  ghost predicate HasWork(d: Db, o: Id) {
    o < |d.orders| && (d.orders[o].assignee.Some? ==> HasOpenLine(d.lines, o))
  }

  lemma ConfirmedHasWork(d: Db, o: Id)
    requires StockInv(d) && Confirm(d, o).Done?
    ensures HasWork(Confirm(d, o).db, o)
  {
    ConfirmExact(d, o);
  }

  lemma WorkOpHasWork(d: Db, actor: Id, op: Op, o: Id)
    requires StockInv(d) && AssignedHaveWork(d) && Apply(d, actor, op).Done? && About(d, op) == Some(o)
    requires op.ConfirmOrder? || op.AllocateOrder? || op.SetWork? || op.Ship?
    ensures HasWork(Apply(d, actor, op).db, o)
  {
    match op {
      case ConfirmOrder(_) => ConfirmedHasWork(d, o);
      case AllocateOrder(_) => AllocateLeavesWork(d, o);
      case SetWork(_, stage, picks) =>
        SetWorkLeavesWork(d, actor, o, stage, picks);
        WorkFromOrders(d, o, stage, picks, 0, []);
      case Ship(picks, today) => ShipLeavesWork(d, actor, picks, today);
    }
  }

  lemma AssignOpHasWork(d: Db, actor: Id, op: Op, o: Id)
    requires StockInv(d) && Apply(d, actor, op).Done? && About(d, op) == Some(o)
    requires op.ClaimWork? || op.ReleaseWork? || op.CancelOrder? || op.RequestCancellation? || op.ReviewCancellation?
    ensures HasWork(Apply(d, actor, op).db, o)
  {
  }

  /** The order a command is about has work left afterwards if it is then assigned. */
  lemma OwnOrderHasWork(d: Db, actor: Id, op: Op)
    requires StockInv(d) && AssignedHaveWork(d) && Apply(d, actor, op).Done? && About(d, op).Some?
    ensures HasWork(Apply(d, actor, op).db, About(d, op).value)
  {
    if op.ConfirmOrder? || op.AllocateOrder? || op.SetWork? || op.Ship? {
      WorkOpHasWork(d, actor, op, About(d, op).value);
    } else {
      AssignOpHasWork(d, actor, op, About(d, op).value);
    }
  }

  lemma OtherOrdersHaveWork(d: Db, d': Db, own: Id, o: Id)
    requires AssignedHaveWork(d) && TouchesOnly(d, d', own) && o < |d.orders| && o != own && d.orders[o].assignee.Some?
    ensures HasOpenLine(d'.lines, o)
  {
    StillOpen(d.lines, d'.lines, o);
  }

  /** Every command but the end of a count keeps work for every assigned order. */
  lemma AssignedKeepWork(d: Db, actor: Id, op: Op)
    requires StockInv(d) && AssignedHaveWork(d) && Apply(d, actor, op).Done? && !op.FinalizeCount?
    ensures AssignedHaveWork(Apply(d, actor, op).db)
  {
    var d' := Apply(d, actor, op).db;
    if About(d, op).Some? {
      OwnOrderHasWork(d, actor, op);
      OrderOpTouches(d, actor, op);
      OrdersCounted(d, actor, op);
      forall o: Id | o < |d'.orders| && o != About(d, op).value && d'.orders[o].assignee.Some?
        ensures HasOpenLine(d'.lines, o)
      {
        OtherOrdersHaveWork(d, d', About(d, op).value, o);
      }
    } else {
      NewOrdersUnassigned(d, actor, op);
      forall o: Id | o < |d'.orders| && d'.orders[o].assignee.Some? ensures HasOpenLine(d'.lines, o) {
        OtherOpTouchesNot(d, actor, op, o);
        StillOpen(d.lines, d'.lines, o);
      }
    }
  }

  lemma OrdersCounted(d: Db, actor: Id, op: Op)
    requires OneLinePerSku(d.lines) && Apply(d, actor, op).Done? && About(d, op).Some?
    ensures |Apply(d, actor, op).db.orders| == |d.orders|
  {
    if op.ConfirmOrder? {
      ConfirmExact(d, op.order);
    } else if op.AllocateOrder? {
      AllocateExact(d, op.order);
    } else if op.SetWork? {
      WorkFromOrders(d, op.order, op.stage, op.picks, 0, []);
    } else {
      OrdersCountedElse(d, actor, op);
    }
  }

  lemma OrdersCountedElse(d: Db, actor: Id, op: Op)
    requires Apply(d, actor, op).Done? && About(d, op).Some?
    requires op.ClaimWork? || op.ReleaseWork? || op.Ship? || op.CancelOrder? || op.RequestCancellation?
             || op.ReviewCancellation?
    ensures |Apply(d, actor, op).db.orders| == |d.orders|
  {
  }

  lemma {:induction false} WorkFromOrders(d: Db, o: Id, stage: Stage, picks: seq<Pick>, n: nat, rows: seq<WorkRow>)
    ensures var out := WorkFrom(d, o, stage, picks, n, rows); out.Done? ==> out.db.orders == d.orders
    decreases |picks| - n
  {
    if n < |picks| {
      match WorkRowStep(d, o, stage, picks[n])
      case Stop(_) =>
      case Row(d', _) =>
        var l := d'.lines[picks[n].line];
        WorkFromOrders(d', o, stage, picks, n + 1, rows + [WorkRow(picks[n].line, Picked(l), InspectedOf(l))]);
    }
  }

  /** Submitting adds an order without a worker; no other command that is about no order changes the order table. */
  lemma NewOrdersUnassigned(d: Db, actor: Id, op: Op)
    requires Apply(d, actor, op).Done? && About(d, op).None? && !op.FinalizeCount?
    ensures var orders' := Apply(d, actor, op).db.orders;
            forall o: Id | |d.orders| <= o < |orders'| :: orders'[o].assignee == None
  {
    if op.ReceiveStock? {
      ReceiveFromKeepsOrders(d, op.warehouse, op.receipt, 0);
    }
  }

  // ---------- the end of a count ----------

  /** The line is not the count's, or the shortage is used up by newer orders before all of it is taken. */
  predicate Survives(d: Db, k: Sku, shortage: int, i: Id) {
    && i < |d.lines| && IsActive(d.lines[i]) && Open(d.lines[i]) > 0
    && (StockCountService.Candidate(d, k, i) ==> StockCountGreedy.NewerUnits(d, k, i) + Open(d.lines[i]) > shortage)
  }

  ghost predicate KeepsALine(d: Db, k: Sku, shortage: int, o: Id) {
    exists i: Id :: Survives(d, k, shortage, i) && d.lines[i].order == o
  }

  /** Finalizing a count leaves every assigned order some work exactly when each of them has a line that survives it. */
  lemma FinalizeLeavesWork(d: Db, c: Id, result: int)
    requires StockInv(d) && StockCountService.Finalize(d, c, result).Done?
    ensures var k := d.counts[c].sku;
            var shortage := Max(0, d.balances[k].reserved - result);
            AssignedHaveWork(StockCountService.Finalize(d, c, result).db) <==>
              forall o: Id | o < |d.orders| && d.orders[o].assignee.Some? :: KeepsALine(d, k, shortage, o)
  {
    var d', k := StockCountService.Finalize(d, c, result).db, d.counts[c].sku;
    var shortage := Max(0, d.balances[k].reserved - result);
    StockCountGreedy.FinalizeExact(d, c, result);
    forall i: Id | i < |d.lines|
      ensures d'.lines[i].order == d.lines[i].order
      ensures IsActive(d'.lines[i]) && Open(d'.lines[i]) > 0 <==> Survives(d, k, shortage, i)
    {
      SurvivorsStayOpen(d, c, result, i);
    }
    forall o: Id ensures HasOpenLine(d'.lines, o) <==> KeepsALine(d, k, shortage, o) {
      if HasOpenLine(d'.lines, o) {
        var i: Id :| i < |d'.lines| && d'.lines[i].order == o && IsActive(d'.lines[i]) && Open(d'.lines[i]) > 0;
        assert Survives(d, k, shortage, i);
      }
      if KeepsALine(d, k, shortage, o) {
        var i: Id :| Survives(d, k, shortage, i) && d.lines[i].order == o;
        assert d'.lines[i].order == o;
      }
    }
  }

  lemma SurvivorsStayOpen(d: Db, c: Id, result: int, i: Id)
    requires StockInv(d) && StockCountService.Finalize(d, c, result).Done? && i < |d.lines|
    ensures var d', k := StockCountService.Finalize(d, c, result).db, d.counts[c].sku;
            var shortage := Max(0, d.balances[k].reserved - result);
            && |d'.lines| == |d.lines| && d'.lines[i].order == d.lines[i].order
            && (IsActive(d'.lines[i]) && Open(d'.lines[i]) > 0 <==> Survives(d, k, shortage, i))
  {
    StockCountGreedy.FinalizeExact(d, c, result);
    assert LineOk(d.orders, d.lines[i]);
    var d', k := StockCountService.Finalize(d, c, result).db, d.counts[c].sku;
    var shortage := Max(0, d.balances[k].reserved - result);
    if StockCountService.Candidate(d, k, i) {
      assert d'.lines[i] == StockCountService.CutLine(d.lines[i], StockCountGreedy.Loss(d, k, i, shortage));
    }
  }

  // ---------- concrete runs ----------

  const SHELF := Sku(0, 0)

  const RECEIVE := ReceiveStock(true, 0, [ReceiptRow(0, true, 5)])

  const SUBMIT := SubmitOrder(0, 0, true, [Item(0, 5, Some(Offer(100, Exempt)))], 0, 0)

  lemma {:induction false} KeysComeFromCalls(calls: seq<Call>, key: Key)
    requires key in Run(START, calls).results
    ensures exists n: Id :: n < |calls| && KeyOf(calls[n]) == Some(key)
  {
    if calls != [] {
      var init, last := calls[..|calls| - 1], calls[|calls| - 1];
      if key in Run(START, init).results {
        KeysComeFromCalls(init, key);
        var n: Id :| n < |init| && KeyOf(init[n]) == Some(key);
        assert KeyOf(calls[n]) == Some(key);
      } else {
        assert KeyOf(last) == Some(key);
      }
    }
  }

  /** A call with a request identifier of its own does its work. */
  lemma FreshCall(calls: seq<Call>, call: Call, db: Db, reply: Reply)
    requires !Refused(call.op) && forall n: Id | n < |calls| :: calls[n].request != call.request
    requires Apply(Run(START, calls).db, call.actor, call.op) == Done(db, reply)
    ensures Run(START, calls + [call]).db == db
  {
    if Stored(Run(START, calls), call) {
      KeysComeFromCalls(calls, KeyOf(call).value);
    }
    assert (calls + [call])[..|calls|] == calls;
  }

  function Calls(ops: seq<Op>): (calls: seq<Call>)
    ensures |calls| == |ops| && forall n: Id | n < |ops| :: calls[n] == Call(0, n, ops[n])
  {
    if ops == [] then [] else Calls(ops[..|ops| - 1]) + [Call(0, |ops| - 1, ops[|ops| - 1])]
  }

  lemma CallsGrow(ops: seq<Op>, op: Op)
    ensures Calls(ops + [op]) == Calls(ops) + [Call(0, |ops|, op)]
  {
    assert (ops + [op])[..|ops|] == ops;
  }

  /** The commands, sent one after the other with fresh request identifiers, lead here. */
  ghost predicate LeadTo(ops: seq<Op>, d: Db) {
    Run(START, Calls(ops)).db == d
  }

  /** The command commits this database. */
  ghost predicate Commits(before: Db, op: Op, after: Db) {
    !Refused(op) && exists reply :: Apply(before, 0, op) == Done(after, reply)
  }

  lemma NextOp(ops: seq<Op>, op: Op, before: Db, after: Db)
    requires LeadTo(ops, before) && Commits(before, op, after)
    ensures LeadTo(ops + [op], after)
  {
    CallsGrow(ops, op);
    var reply :| Apply(before, 0, op) == Done(after, reply);
    FreshCall(Calls(ops), Call(0, |ops|, op), after, reply);
  }

  function Stocked(onHand: int, reserved: int): map<Sku, Balance> {
    map[SHELF := Balance(onHand, reserved)]
  }

  lemma ReceiveFive(d: Db, after: Db)
    requires !UnderCount(d.counts, SHELF)
    requires after == d.(balances := CatalogService.Arrive(d.balances, SHELF, 5),
                         movements := d.movements + [Movement(SHELF, Received, 5)])
    ensures Commits(d, RECEIVE, after)
  {
    var rows := [ReceiptRow(0, true, 5)];
    assert CatalogService.ReceiveRow(d, 0, rows[0], CatalogService.Repeated(rows, 0)).Row?;
    assert Apply(d, 0, RECEIVE) == Done(after, StockReceived);
  }

  const ORDER := Order(0, 0, Submitted, 0, 0, None)

  const LINE := Line(0, SHELF, 5, 0, 100, Exempt, None)

  const HELD := LINE.(reserved := 5, reservation := Some(Reservation(5, 0, Active, 0, 0)))

  lemma SubmitFive(d: Db, after: Db)
    requires d.orders == [] && d.lines == [] && after == d.(orders := [ORDER], lines := [LINE])
    ensures Commits(d, SUBMIT, after)
  {
    assert OrderService.NewLines(0, 0, SUBMIT.items) == [LINE];
    assert Apply(d, 0, SUBMIT) == Done(after, OrderSubmitted(0));
  }

  lemma ConfirmFive(d: Db, after: Db)
    requires d.orders == [ORDER] && d.lines == [LINE] && d.balances == Stocked(5, 0) && !UnderCount(d.counts, SHELF)
    requires after == d.(orders := [ORDER.(status := Confirmed)], lines := [HELD], balances := Stocked(5, 5),
                         events := d.events + [Event(0, Created, 5)])
    ensures Commits(d, ConfirmOrder(0), after)
  {
    var row := ConfirmRow(d, 0);
    assert row.db.lines == [HELD] && row.db.balances == Stocked(5, 5);
    assert ConfirmFrom(row.db, 0, 1, 5, 0).Done?;
    assert Apply(d, 0, ConfirmOrder(0)) == Done(after, OrderConfirmed(0, 5, 0));
  }

  lemma CountShelf(d: Db, after: Db, b: Balance)
    requires d.balances == map[SHELF := b] && d.counts == [] && !StockCountService.HasPickedLine(d, SHELF)
    requires after == d.(counts := [Count(SHELF, Counting, b, 0, 0)])
    ensures Commits(d, StartCount(SHELF), after)
  {
    assert Apply(d, 0, StartCount(SHELF)) == Done(after, CountStarted(0, b));
  }

  const RECEIVED := EMPTY.(balances := Stocked(5, 0), movements := [Movement(SHELF, Received, 5)])

  lemma FirstReceipt()
    ensures LeadTo([RECEIVE], RECEIVED)
  {
    assert Calls([]) == [];
    assert LeadTo([], EMPTY);
    ReceiveFive(EMPTY, RECEIVED);
    NextOp([], RECEIVE, EMPTY, RECEIVED);
    assert [] + [RECEIVE] == [RECEIVE];
  }

  // Stock counted at 0, five units received later, and an order confirmed from them.

  const COUNTING := RECEIVED.(counts := [Count(SHELF, Counting, Balance(5, 0), 0, 0)])

  const FOUND_NONE :=
    RECEIVED.(counts := [Count(SHELF, Counted, Balance(5, 0), 0, 0)], balances := Stocked(0, 0),
              movements := [Movement(SHELF, Received, 5), Movement(SHELF, Adjusted, -5)])

  const RESTOCKED := FOUND_NONE.(balances := Stocked(5, 0),
                                 movements := FOUND_NONE.movements + [Movement(SHELF, Received, 5)])

  const ORDERED := RESTOCKED.(orders := [ORDER], lines := [LINE])

  const SOLD := ORDERED.(orders := [ORDER.(status := Confirmed)], lines := [HELD], balances := Stocked(5, 5),
                         events := [Event(0, Created, 5)])

  lemma FindNone()
    ensures Commits(COUNTING, FinalizeCount(0, 0), FOUND_NONE)
  {
    assert StockCountService.NewestFirst(COUNTING, SHELF, 0) == [];
    assert COUNTING.movements + [Movement(SHELF, Adjusted, -5)] == FOUND_NONE.movements;
    assert Apply(COUNTING, 0, FinalizeCount(0, 0)) == Done(FOUND_NONE, CountFinalized(0, 0, 0, -5));
  }

  const RESTOCKING := [RECEIVE] + [StartCount(SHELF)] + [FinalizeCount(0, 0)] + [RECEIVE]

  lemma ShelfRestocked()
    ensures LeadTo(RESTOCKING, RESTOCKED)
  {
    FirstReceipt();
    CountShelf(RECEIVED, COUNTING, Balance(5, 0));
    NextOp([RECEIVE], StartCount(SHELF), RECEIVED, COUNTING);
    FindNone();
    NextOp([RECEIVE] + [StartCount(SHELF)], FinalizeCount(0, 0), COUNTING, FOUND_NONE);
    ReceiveFive(FOUND_NONE, RESTOCKED);
    NextOp([RECEIVE] + [StartCount(SHELF)] + [FinalizeCount(0, 0)], RECEIVE, FOUND_NONE, RESTOCKED);
  }

  lemma SoldIsUncovered()
    ensures !CountCovers(SOLD, 0)
  {
    SumAppend([], HELD, OpenAt(SHELF));
    assert [] + [HELD] == SOLD.lines;
    assert SOLD.counts[0].sku == SHELF;
  }

  /** Nothing is wrong with this run, yet its count does not cover what is reserved. */
  lemma CountFallsBehind()
    ensures LeadTo(RESTOCKING + [SUBMIT] + [ConfirmOrder(0)], SOLD)
    ensures !CountCovers(SOLD, 0)
  {
    ShelfRestocked();
    SubmitFive(RESTOCKED, ORDERED);
    NextOp(RESTOCKING, SUBMIT, RESTOCKED, ORDERED);
    ConfirmFive(ORDERED, SOLD);
    NextOp(RESTOCKING + [SUBMIT], ConfirmOrder(0), ORDERED, SOLD);
    SoldIsUncovered();
  }

  // A worker claims an order, and a count of its only product finds nothing.

  const TAKEN := RECEIVED.(orders := [ORDER], lines := [LINE])

  const PROMISED := TAKEN.(orders := [ORDER.(status := Confirmed)], lines := [HELD], balances := Stocked(5, 5),
                           events := [Event(0, Created, 5)])

  const CLAIMED := PROMISED.(orders := [ORDER.(status := Confirmed, assignee := Some(0))])

  const RECOUNTING := CLAIMED.(counts := [Count(SHELF, Counting, Balance(5, 5), 0, 0)])

  const EMPTIED :=
    CLAIMED.(counts := [Count(SHELF, Counted, Balance(5, 5), 0, 5)], balances := Stocked(0, 0),
             lines := [LINE.(reservation := Some(Reservation(5, 0, Released, 0, 0)))],
             events := [Event(0, Created, 5), Event(0, Freed, 5)],
             movements := [Movement(SHELF, Received, 5), Movement(SHELF, Adjusted, -5)])

  lemma ClaimFive()
    ensures Commits(PROMISED, ClaimWork(0), CLAIMED)
  {
    assert PROMISED.lines[0] == HELD;
    assert Apply(PROMISED, 0, ClaimWork(0)) == Done(CLAIMED, WorkClaimed(0, 0));
  }

  lemma EmptyShelf()
    ensures Commits(RECOUNTING, FinalizeCount(0, 0), EMPTIED)
  {
    assert StockCountService.NewestFirst(RECOUNTING, SHELF, 0) == [];
    assert StockCountService.NewestFirst(RECOUNTING, SHELF, 1) == [0];
    var cut := StockCountService.CutRow(RECOUNTING, 0, 5);
    assert cut.lines == EMPTIED.lines && cut.events == EMPTIED.events;
    assert StockCountService.CutFrom(cut, [0], 1, 0) == Row(cut, 0);
    assert RECOUNTING.movements + [Movement(SHELF, Adjusted, -5)] == EMPTIED.movements;
    assert Apply(RECOUNTING, 0, FinalizeCount(0, 0)) == Done(EMPTIED, CountFinalized(0, 0, 5, -5));
  }

  const CLAIMING := [RECEIVE] + [SUBMIT] + [ConfirmOrder(0)] + [ClaimWork(0)]

  lemma OrderClaimed()
    ensures LeadTo(CLAIMING, CLAIMED)
  {
    FirstReceipt();
    SubmitFive(RECEIVED, TAKEN);
    NextOp([RECEIVE], SUBMIT, RECEIVED, TAKEN);
    ConfirmFive(TAKEN, PROMISED);
    NextOp([RECEIVE] + [SUBMIT], ConfirmOrder(0), TAKEN, PROMISED);
    ClaimFive();
    NextOp([RECEIVE] + [SUBMIT] + [ConfirmOrder(0)], ClaimWork(0), PROMISED, CLAIMED);
  }

  /** The order stays assigned with nothing left to ship. */
  lemma AssignmentOutlivesWork()
    ensures LeadTo(CLAIMING + [StartCount(SHELF)] + [FinalizeCount(0, 0)], EMPTIED)
    ensures !AssignedHaveWork(EMPTIED)
  {
    OrderClaimed();
    CountShelf(CLAIMED, RECOUNTING, Balance(5, 5));
    NextOp(CLAIMING, StartCount(SHELF), CLAIMED, RECOUNTING);
    EmptyShelf();
    NextOp(CLAIMING + [StartCount(SHELF)], FinalizeCount(0, 0), RECOUNTING, EMPTIED);
    assert EMPTIED.orders[0].assignee == Some(0);
  }
}
