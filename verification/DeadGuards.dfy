/** The defensive checks that no reachable state can trip. */
module DeadGuards {
  import opened Wrappers
  import opened Tables
  import opened StockInvariant
  import opened BooksInvariant
  import opened OrderService
  import opened Commands
  import opened Invariant
  import OrderInvariant
  import StockCountInvariant
  import StockCountService
  import ReceivableService

  // ---------- reserved stock is always there ----------

  lemma ShipRowCovered(d: Db, shipment: Id, pick: Pick, today: Date)
    requires StockInv(d)
    ensures ShipRow(d, shipment, pick, today) != Stop(ReservedUnavailable)
  {
    if Shippable(d, pick.line) {
      OrderInvariant.OpenIsReserved(d, pick.line);
      assert BalanceOk(d.balances, d.lines, d.movements, d.lines[pick.line].sku);
    }
  }

  lemma ShipFromCovered(d: Db, shipment: Id, o: Id, picks: seq<Pick>, today: Date)
    requires StockInv(d) && OrderInvariant.PicksOf(d, o, picks)
    ensures ShipFrom(d, shipment, picks, today, 0, 0) != Stop(ReservedUnavailable)
  {
    var kept := (e: Db, m: nat) => StockInv(e) && OrderInvariant.PicksOf(e, o, picks);
    forall e: Db, m: nat | kept(e, m) && m < |picks|
      ensures OrderInvariant.RowKeeps(kept, {ReservedUnavailable}, e, shipment, picks, today, m)
    {
      ShipRowCovered(e, shipment, picks[m], today);
      OrderInvariant.ShipRowKeeps(e, shipment, picks[m], today);
    }
    OrderInvariant.ShipFromPreserves(kept, {ReservedUnavailable}, d, shipment, picks, today, 0, 0);
  }

  lemma ShipCovered(d: Db, actor: Id, picks: seq<Pick>, today: Date)
    requires StockInv(d)
    ensures OrderService.Ship(d, actor, picks, today) != Failed(ReservedUnavailable)
  {
    if PicksValid(picks, 1) && Shippable(d, picks[0].line) {
      var o, warehouse := d.lines[picks[0].line].order, d.lines[picks[0].line].sku.warehouse;
      if !HasPending(d.cancelRequests, o)
         && forall n | 0 <= n < |picks| :: Shippable(d, picks[n].line) && d.lines[picks[n].line].order == o {
        assert LineOk(d.orders, d.lines[picks[0].line]);
        OrderInvariant.AssignKeeps(d, o, Some(actor));
        var started := Assign(d, o, Some(actor)).(shipments := d.shipments + [Shipment(o, warehouse)]);
        assert StockInv(started);
        ShipFromCovered(started, |d.shipments|, o, picks, today);
      }
    }
  }

  lemma {:induction false} ReleaseFromCovered(d: Db, requests: seq<CancelRequest>, o: Id, i: nat, freed: int)
    requires StockInv(d.(cancelRequests := requests))
    requires forall j | 0 <= j < |d.lines| && d.lines[j].order == o :: Picked(d.lines[j]) == 0
    ensures ReleaseFrom(d, o, i, freed) != Stop(ReservedUnavailable)
    decreases |d.lines| - i
  {
    if i < |d.lines| {
      if d.lines[i].order != o {
        ReleaseFromCovered(d, requests, o, i + 1, freed);
      } else {
        OrderInvariant.OpenIsReserved(d.(cancelRequests := requests), i);
        OrderInvariant.ReleaseRowKeeps(d, requests, i);
        match ReleaseRow(d, i)
        case Stop(_) =>
        case Row(d', quantity) =>
          ReleaseFromCovered(d', requests, o, i + 1, freed + quantity);
      }
    }
  }

  lemma ReleaseOrderCovered(d: Db, o: Id)
    requires StockInv(d) && o < |d.orders|
    ensures ReleaseOrder(d, o) != Stop(ReservedUnavailable)
  {
    OrderInvariant.ResetKeeps(d, o);
    var reset := d.(lines := ResetWork(d.lines, o));
    assert reset.(cancelRequests := d.cancelRequests) == reset;
    ReleaseFromCovered(reset, d.cancelRequests, o, 0, 0);
  }

  // ---------- the early check makes the later one redundant ----------

  lemma {:induction false} AllocateFromUncounted(d: Db, o: Id, i: nat, added: int, waiting: int)
    requires !HasCountedLine(d, o)
    ensures AllocateFrom(d, o, i, added, waiting) != Failed(SkuUnderCount)
    decreases |d.lines| - i
  {
    if i < |d.lines| {
      if d.lines[i].order != o {
        AllocateFromUncounted(d, o, i + 1, added, waiting);
      } else {
        match AllocateRow(d, i)
        case Stop(_) =>
        case Row(d', quantity) =>
          assert !HasCountedLine(d', o);
          AllocateFromUncounted(d', o, i + 1, added + quantity, waiting + Waiting(d.lines[i]) - quantity);
      }
    }
  }

  // ---------- all of them ----------

  /** Rejections that only a broken database could cause. */
  predicate Defensive(op: Op, error: Error) {
    || error == CannotReconcile || error == PickedDuringCount || error == BalanceUnavailable
    || error == ReservedUnavailable || error == NotReviewable
    || (op.AllocateOrder? && error == SkuUnderCount)
    || (op.VoidPayment? && error == ConstraintViolation)
  }

  lemma VoidNeverRepeats(d: Db, p: Id)
    requires BooksInv(d)
    ensures ReceivableService.VoidPayment(d, p) != Failed(ConstraintViolation)
  {
    forall a: Id | a < |d.allocations| ensures AllocationOk(d.payments, d.settlements, d.allocations[a]) {
    }
  }

  lemma FinalizeFailures(d: Db, c: Id, result: int, error: Error)
    requires StockInv(d) && StockCountService.Finalize(d, c, result) == Failed(error)
    ensures error in {BadRequest, NotFound, CountClosed, ConstraintViolation}
  {
    if result >= 0 {
      StockCountInvariant.FinalizeNeverStuck(d, c, result);
    }
  }

  lemma CancelFailures(d: Db, o: Id, error: Error)
    requires StockInv(d) && OrderService.Cancel(d, o) == Failed(error)
    ensures error in {NotFound, NotCancellable, ReviewPending, SkuUnderCount}
  {
    if o < |d.orders| {
      ReleaseOrderCovered(d, o);
    }
  }

  lemma ReviewFailures(d: Db, q: Id, approve: bool, error: Error)
    requires StockInv(d) && OrderService.Review(d, q, approve) == Failed(error)
    ensures error in {NotFound, AlreadyReviewed, SkuUnderCount}
  {
    if q < |d.cancelRequests| && d.cancelRequests[q].status == Pending {
      ReleaseOrderCovered(d, d.cancelRequests[q].order);
    }
  }

  /** The other commands have no such check at all. */
  lemma OtherCommands(d: Db, actor: Id, op: Op, error: Error)
    requires Defensive(op, error)
    requires !op.AllocateOrder? && !op.Ship? && !op.CancelOrder? && !op.ReviewCancellation?
    requires !op.FinalizeCount? && !op.VoidPayment?
    ensures Apply(d, actor, op) != Failed(error)
  {
  }

  lemma AllocateFailures(d: Db, o: Id, error: Error)
    requires OrderService.Allocate(d, o) == Failed(error)
    ensures error in {NotFound, NotAllocatable, ReviewPending, OrderUnderCount}
  {
    if !HasCountedLine(d, o) {
      AllocateFromUncounted(d, o, 0, 0, 0);
    }
  }

  lemma ApplyNeverDefensive(d: Db, actor: Id, op: Op, error: Error)
    requires StockInv(d) && BooksInv(d) && Defensive(op, error)
    ensures Apply(d, actor, op) != Failed(error)
  {
    if Apply(d, actor, op) == Failed(error) {
      match op {
        case AllocateOrder(o) => AllocateFailures(d, o, error);
        case Ship(picks, today) => ShipCovered(d, actor, picks, today);
        case CancelOrder(o) => CancelFailures(d, o, error);
        case ReviewCancellation(q, approve) => ReviewFailures(d, q, approve, error);
        case FinalizeCount(c, result) => FinalizeFailures(d, c, result, error);
        case VoidPayment(p) => VoidNeverRepeats(d, p);
        case _ => OtherCommands(d, actor, op, error);
      }
    }
  }

  lemma AnswerNeverDefensive(s: State, call: Call, error: Error)
    requires StockInv(s.db) && BooksInv(s.db) && Defensive(call.op, error)
    ensures Answer(s, call) != Failure(error)
  {
    ApplyNeverDefensive(s.db, call.actor, call.op, error);
  }

  /** After any run, no command can be answered with a defensive rejection. */
  lemma NoDefensiveAnswer(calls: seq<Call>, call: Call, error: Error)
    requires Defensive(call.op, error)
    ensures Answer(Run(START, calls), call) != Failure(error)
  {
    ReachableInv(calls);
    AnswerNeverDefensive(Run(START, calls), call, error);
  }
}
