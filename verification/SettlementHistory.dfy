/** The books only grow: ledger entries and settlements, once written, are never rewritten by any later command. */
module SettlementHistory {
  import opened Wrappers
  import opened Tables
  import opened Sums
  import opened Totals
  import opened StockInvariant
  import opened SalesInvariant
  import opened BooksInvariant
  import opened Commands
  import opened Invariant
  import ReceivableService
  import OrderService
  import SalesProofs

  // ---------- growth ----------

  ghost predicate Extends<T>(rows: seq<T>, rows': seq<T>) {
    |rows| <= |rows'| && forall n: Id | n < |rows| :: rows'[n] == rows[n]
  }

  /** A settlement may be finalized, nothing else; lines are added to new settlements only. */
  ghost predicate SettlementsGrow(d: Db, d': Db) {
    && |d.settlements| <= |d'.settlements|
    && (forall j: Id | j < |d.settlements| ::
          && d'.settlements[j] == d.settlements[j].(status := d'.settlements[j].status, due := d'.settlements[j].due)
          && (d.settlements[j].status == Finalized ==> d'.settlements[j] == d.settlements[j]))
    && Extends(d.settlementLines, d'.settlementLines)
    && (forall n: Id | |d.settlementLines| <= n < |d'.settlementLines| ::
        d'.settlementLines[n].settlement >= |d.settlements|)
  }

  /** A payment may be voided and its allocations reversed, nothing else. */
  ghost predicate PaymentsGrow(d: Db, d': Db) {
    && |d.payments| <= |d'.payments|
    && (forall p: Id | p < |d.payments| ::
          && d'.payments[p] == d.payments[p].(status := d'.payments[p].status)
          && (d.payments[p].status == Voided ==> d'.payments[p].status == Voided))
    && |d.allocations| <= |d'.allocations|
    && (forall a: Id | a < |d.allocations| ::
          && d'.allocations[a] == d.allocations[a].(reversals := d'.allocations[a].reversals)
          && d.allocations[a].reversals <= d'.allocations[a].reversals)
    && Extends(d.refunds, d'.refunds)
  }

  ghost predicate BooksGrow(d: Db, d': Db) {
    Extends(d.entries, d'.entries) && SettlementsGrow(d, d') && PaymentsGrow(d, d')
  }

  lemma BooksGrowTransitive(d: Db, e: Db, f: Db)
    requires BooksGrow(d, e) && BooksGrow(e, f)
    ensures BooksGrow(d, f)
  {
  }

  // ---------- every command ----------

  /** No settlement, payment or refund is written. */
  predicate BooksUnwritten(d: Db, d': Db) {
    && d'.settlements == d.settlements && d'.settlementLines == d.settlementLines
    && d'.payments == d.payments && d'.allocations == d.allocations && d'.refunds == d.refunds
  }

  lemma QuietGrows(d: Db, d': Db)
    requires Quiet(d, d')
    ensures BooksGrow(d, d') && BooksUnwritten(d, d')
  {
  }

  lemma AssignGrows(d: Db, actor: Id, op: Op)
    requires Apply(d, actor, op).Done? && (op.ClaimWork? || op.ReleaseWork?)
    ensures BooksGrow(d, Apply(d, actor, op).db) && BooksUnwritten(d, Apply(d, actor, op).db)
  {
  }

  lemma WorkOpGrows(d: Db, actor: Id, op: Op)
    requires StockInv(d) && Apply(d, actor, op).Done?
    requires op.ConfirmOrder? || op.AllocateOrder? || op.SetWork?
    ensures BooksGrow(d, Apply(d, actor, op).db) && BooksUnwritten(d, Apply(d, actor, op).db)
  {
    match op {
      case ConfirmOrder(o) =>
        SalesProofs.ConfirmQuiet(d, o);
        QuietGrows(d, OrderService.Confirm(d, o).db);
      case AllocateOrder(o) =>
        SalesProofs.AllocateFromQuiet(d, o, 0, 0, 0);
        QuietGrows(d, OrderService.Allocate(d, o).db);
      case SetWork(o, stage, picks) =>
        SalesProofs.WorkFromQuiet(d, o, stage, picks, 0, []);
        QuietGrows(d, OrderService.SetWork(d, actor, o, stage, picks).db);
    }
  }

  lemma CancelOpGrows(d: Db, actor: Id, op: Op)
    requires Apply(d, actor, op).Done?
    requires op.CancelOrder? || op.RequestCancellation? || op.ReviewCancellation?
    ensures BooksGrow(d, Apply(d, actor, op).db) && BooksUnwritten(d, Apply(d, actor, op).db)
  {
    match op {
      case CancelOrder(o) =>
        SalesProofs.CancelQuiet(d, o);
        QuietGrows(d, OrderService.Cancel(d, o).db);
      case RequestCancellation(_, _) =>
      case ReviewCancellation(q, approve) =>
        SalesProofs.ReviewQuiet(d, q, approve);
        QuietGrows(d, OrderService.Review(d, q, approve).db);
    }
  }

  lemma StockOpGrows(d: Db, actor: Id, op: Op)
    requires Apply(d, actor, op).Done? && IsStockOp(op)
    ensures BooksGrow(d, Apply(d, actor, op).db) && BooksUnwritten(d, Apply(d, actor, op).db)
  {
    match op {
      case StartCount(_) =>
      case FinalizeCount(c, result) => SalesProofs.FinalizeQuiet(d, c, result);
      case CancelCount(_) =>
      case AdjustStock(_, _) =>
      case ReceiveStock(_, warehouse, receipt) => SalesProofs.ReceiveFromQuiet(d, warehouse, receipt, 0);
    }
  }

  lemma ShipGrows(d: Db, actor: Id, picks: seq<Pick>, today: Date)
    requires OrderService.Ship(d, actor, picks, today).Done?
    ensures var d' := OrderService.Ship(d, actor, picks, today).db; BooksGrow(d, d') && BooksUnwritten(d, d')
  {
    assert OrderService.Shippable(d, picks[0].line);
    var o, warehouse := d.lines[picks[0].line].order, d.lines[picks[0].line].sku.warehouse;
    var started := OrderService.Assign(d, o, Some(actor)).(shipments := d.shipments + [Shipment(o, warehouse)]);
    ShipFromExtends(started, |d.shipments|, picks, today, 0, 0);
    var d' := OrderService.Ship(d, actor, picks, today).db;
    forall x: Id | x < |d.entries| ensures d'.entries[x] == d.entries[x] {
      assert d'.entries[..|d.entries|][x] == d'.entries[x];
    }
  }

  lemma DraftGrows(d: Db, customer: Id, month: int, dueDay: Option<DueDay>)
    requires ReceivableService.DraftSettlement(d, customer, month, dueDay).Done?
    ensures BooksGrow(d, ReceivableService.DraftSettlement(d, customer, month, dueDay).db)
  {
    var d' := ReceivableService.DraftSettlement(d, customer, month, dueDay).db;
    var lines := ReceivableService.DraftLines(d, customer, month, |d.entries|);
    DraftLinesAre(d, customer, month, |d.entries|);
    forall n: Id | |d.settlementLines| <= n < |d'.settlementLines|
      ensures d'.settlementLines[n].settlement == |d.settlements|
    {
      assert d'.settlementLines[n] == lines[n - |d.settlementLines|];
      assert DraftedOk(d, customer, month, |d.entries|, lines[n - |d.settlementLines|]);
    }
  }

  lemma ReturnOpGrows(d: Db, actor: Id, op: Op)
    requires Apply(d, actor, op).Done? && IsReturnOp(op)
    ensures BooksGrow(d, Apply(d, actor, op).db) && BooksUnwritten(d, Apply(d, actor, op).db)
  {
  }

  lemma VoidGrows(d: Db, p: Id)
    requires ReceivableService.VoidPayment(d, p).Done?
    ensures BooksGrow(d, ReceivableService.VoidPayment(d, p).db)
  {
  }

  lemma RefundGrows(d: Db, source: RefundSource, amount: int, date: Date, reference: string)
    requires ReceivableService.RecordRefund(d, source, amount, date, reference).Done?
    ensures BooksGrow(d, ReceivableService.RecordRefund(d, source, amount, date, reference).db)
  {
  }

  lemma MoneyOpGrows(d: Db, actor: Id, op: Op)
    requires Apply(d, actor, op).Done?
    requires op.FinalizeSettlement? || op.RecordPayment? || op.AllocatePayment? || op.RecordRefund? || op.VoidPayment?
    ensures BooksGrow(d, Apply(d, actor, op).db)
  {
    if op.VoidPayment? {
      VoidGrows(d, op.payment);
    } else if op.RecordRefund? {
      RefundGrows(d, op.source, op.amount, op.date, op.reference);
    }
  }

  lemma SubmitGrows(d: Db, actor: Id, op: Op)
    requires Apply(d, actor, op).Done? && op.SubmitOrder?
    ensures BooksGrow(d, Apply(d, actor, op).db) && BooksUnwritten(d, Apply(d, actor, op).db)
  {
  }

  lemma ApplyGrows(d: Db, actor: Id, op: Op)
    requires StockInv(d) && Apply(d, actor, op).Done?
    ensures BooksGrow(d, Apply(d, actor, op).db)
  {
    if op.SubmitOrder? {
      SubmitGrows(d, actor, op);
    } else if op.Ship? {
      ShipGrows(d, actor, op.picks, op.today);
    } else if op.CancelOrder? || op.RequestCancellation? || op.ReviewCancellation? {
      CancelOpGrows(d, actor, op);
    } else if op.ClaimWork? || op.ReleaseWork? {
      AssignGrows(d, actor, op);
    } else if IsOrderOp(op) {
      WorkOpGrows(d, actor, op);
    } else if IsStockOp(op) {
      StockOpGrows(d, actor, op);
    } else if IsReturnOp(op) {
      ReturnOpGrows(d, actor, op);
    } else if op.DraftSettlement? {
      DraftGrows(d, op.customer, op.month, op.dueDay);
    } else {
      MoneyOpGrows(d, actor, op);
    }
  }

  /** Only the commands on settlements, payments and refunds write them. */
  lemma OtherOpUnwritten(d: Db, actor: Id, op: Op)
    requires StockInv(d) && Apply(d, actor, op).Done? && (IsOrderOp(op) || IsStockOp(op) || IsReturnOp(op))
    ensures BooksUnwritten(d, Apply(d, actor, op).db)
  {
    if op.SubmitOrder? {
      SubmitGrows(d, actor, op);
    } else if op.Ship? {
      ShipGrows(d, actor, op.picks, op.today);
    } else if op.CancelOrder? || op.RequestCancellation? || op.ReviewCancellation? {
      CancelOpGrows(d, actor, op);
    } else if op.ClaimWork? || op.ReleaseWork? {
      AssignGrows(d, actor, op);
    } else if IsOrderOp(op) {
      WorkOpGrows(d, actor, op);
    } else if IsStockOp(op) {
      StockOpGrows(d, actor, op);
    } else {
      ReturnOpGrows(d, actor, op);
    }
  }

  lemma NextGrows(s: State, call: Call)
    requires StockInv(s.db)
    ensures BooksGrow(s.db, Next(s, call).db)
  {
    if Apply(s.db, call.actor, call.op).Done? {
      ApplyGrows(s.db, call.actor, call.op);
    }
  }

  lemma {:induction false} RunGrows(s: State, calls: seq<Call>)
    requires Inv(s.db)
    ensures BooksGrow(s.db, Run(s, calls).db)
  {
    if calls != [] {
      var init := calls[..|calls| - 1];
      RunGrows(s, init);
      RunKeeps(s, init);
      NextGrows(Run(s, init), calls[|calls| - 1]);
      BooksGrowTransitive(s.db, Run(s, init).db, Run(s, calls).db);
    }
  }

  // ---------- what never changes ----------

  /** The settlement has the same header, apart from being finalized, and the same lines for the same entries. */
  ghost predicate SameSettlement(d: Db, d': Db, j: Id) {
    && j < |d.settlements| <= |d'.settlements|
    && d'.settlements[j] == d.settlements[j].(status := d'.settlements[j].status, due := d'.settlements[j].due)
    && (d.settlements[j].status == Finalized ==> d'.settlements[j] == d.settlements[j])
    && |d.settlementLines| <= |d'.settlementLines| && |d.entries| <= |d'.entries|
    && (forall n: Id | n < |d.settlementLines| && d.settlementLines[n].settlement == j ::
          && d'.settlementLines[n] == d.settlementLines[n]
          && d.settlementLines[n].entry < |d.entries|
          && d'.entries[d.settlementLines[n].entry] == d.entries[d.settlementLines[n].entry])
    && (forall n: Id | |d.settlementLines| <= n < |d'.settlementLines| :: d'.settlementLines[n].settlement != j)
  }

  /** A settlement bills entries of its customer and month only, and its totals are theirs. */
  ghost predicate BillsItsMonth(d: Db, j: Id)
    requires j < |d.settlements|
  {
    var h := d.settlements[j];
    && (forall n: Id | n < |d.settlementLines| && d.settlementLines[n].settlement == j ::
          && d.settlementLines[n].entry < |d.entries|
          && var e := d.entries[d.settlementLines[n].entry];
             && e.customer == h.customer && e.date.month == h.month
             && d.settlementLines[n] == SettlementLine(j, d.settlementLines[n].entry, e.supply, e.tax, e.amount))
    && Sum(d.settlementLines, SupplyIn(j)) == h.supply
    && Sum(d.settlementLines, TaxIn(j)) == h.tax
    && Sum(d.settlementLines, AmountIn(j)) == h.total == h.supply + h.tax
  }

  lemma SettlementsBill(d: Db, j: Id)
    requires SettlementsOk(d) && j < |d.settlements|
    ensures BillsItsMonth(d, j)
  {
    assert HeaderOk(d.settlements, d.settlementLines, j);
    forall n: Id | n < |d.settlementLines| && d.settlementLines[n].settlement == j
      ensures d.settlementLines[n].entry < |d.entries|
      ensures var e := d.entries[d.settlementLines[n].entry];
              && e.customer == d.settlements[j].customer && e.date.month == d.settlements[j].month
              && d.settlementLines[n] == SettlementLine(j, d.settlementLines[n].entry, e.supply, e.tax, e.amount)
    {
      assert SettledOk(d, n);
    }
  }

  /** A drafted settlement bills the same entries for the same amounts in every continuation of the run. */
  lemma SettlementsAreFixed(calls: seq<Call>, more: seq<Call>, j: Id)
    requires j < |Run(START, calls).db.settlements|
    ensures SameSettlement(Run(START, calls).db, Run(START, calls + more).db, j)
    ensures BillsItsMonth(Run(START, calls).db, j) && BillsItsMonth(Run(START, calls + more).db, j)
  {
    ReachableInv(calls);
    ReachableInv(calls + more);
    RunConcat(START, calls, more);
    RunGrows(Run(START, calls), more);
    var d, d' := Run(START, calls).db, Run(START, calls + more).db;
    SettlementsBill(d, j);
    SettlementsBill(d', j);
  }

  /** No entry is ever billed twice, not on two settlements and not twice on one. */
  lemma EntriesBilledOnce(calls: seq<Call>, m: Id, n: Id)
    requires var d := Run(START, calls).db;
             m < |d.settlementLines| && n < |d.settlementLines|
                 && d.settlementLines[m].entry == d.settlementLines[n].entry
    ensures m == n
  {
    ReachableInv(calls);
    assert SettlementsOk(Run(START, calls).db);
  }

  // ---------- the two commands without a stored result ----------

  lemma DraftedTwice(d: Db, later: Db, customer: Id, month: int, dueDay: Option<DueDay>)
    requires ReceivableService.DraftSettlement(d, customer, month, dueDay).Done?
    requires BooksGrow(ReceivableService.DraftSettlement(d, customer, month, dueDay).db, later)
    ensures ReceivableService.DraftSettlement(later, customer, month, dueDay) == Failed(SettlementExists)
  {
    var j, d' := |d.settlements|, ReceivableService.DraftSettlement(d, customer, month, dueDay).db;
    assert later.settlements[j] ==
        d'.settlements[j].(status := later.settlements[j].status, due := later.settlements[j].due);
  }

  lemma FinalizedTwice(d: Db, later: Db, j: Id)
    requires ReceivableService.FinalizeSettlement(d, j).Done?
    requires BooksGrow(ReceivableService.FinalizeSettlement(d, j).db, later)
    ensures ReceivableService.FinalizeSettlement(later, j) == Failed(AlreadyFinalized)
  {
    assert later.settlements[j].status == Finalized;
  }

  /** Drafting and finalizing store no result; sent again they are refused, so they too take effect at most once. */
  lemma UnstoredTwice(s: State, first: Call, calls: seq<Call>)
    requires Inv(s.db) && KeyOf(first).None? && Answer(s, first).Success?
    ensures var later := Run(Next(s, first), calls);
            && Answer(later, first) == Failure(if first.op.DraftSettlement? then SettlementExists else AlreadyFinalized)
            && Next(later, first) == later
  {
    NextKeeps(s, first);
    RunGrows(Next(s, first), calls);
    var later := Run(Next(s, first), calls).db;
    if first.op.DraftSettlement? {
      DraftedTwice(s.db, later, first.op.customer, first.op.month, first.op.dueDay);
    } else {
      FinalizedTwice(s.db, later, first.op.settlement);
    }
  }

  // ---------- which entries can still be billed ----------

  ghost predicate HasSettlement(d: Db, customer: Id, month: int) {
    exists j: Id :: j < |d.settlements| && d.settlements[j].customer == customer && d.settlements[j].month == month
  }

  /** A line added since belongs to another settlement, and so to an entry of another customer or month. */
  lemma NewLineIsElsewhere(d: Db, d': Db, j: Id, n: Id)
    requires BooksGrow(d, d') && SettlementsOk(d') && j < |d.settlements|
    requires |d.settlementLines| <= n < |d'.settlementLines|
    ensures d'.settlementLines[n].entry < |d'.entries|
    ensures var e := d'.entries[d'.settlementLines[n].entry];
            e.customer != d.settlements[j].customer || e.date.month != d.settlements[j].month
  {
    assert SettledOk(d', n);
    var i := d'.settlementLines[n].settlement;
    assert d'.settlements[j] == d.settlements[j].(status := d'.settlements[j].status, due := d'.settlements[j].due);
    assert d'.settlements[i].customer != d'.settlements[j].customer
           || d'.settlements[i].month != d'.settlements[j].month;
  }

  /** A settlement that exists takes up no further entries. */
  lemma StrandedStays(s: State, calls: seq<Call>, e: Id)
    requires Inv(s.db) && e < |s.db.entries| && !ReceivableService.OnSettlement(s.db.settlementLines, e)
    requires HasSettlement(s.db, s.db.entries[e].customer, s.db.entries[e].date.month)
    ensures !ReceivableService.OnSettlement(Run(s, calls).db.settlementLines, e)
  {
    var d, d' := s.db, Run(s, calls).db;
    RunGrows(s, calls);
    RunKeeps(s, calls);
    var j: Id :|
      j < |d.settlements| && d.settlements[j].customer == d.entries[e].customer
          && d.settlements[j].month == d.entries[e].date.month;
    forall n: Id | n < |d'.settlementLines| ensures d'.settlementLines[n].entry != e {
      if n < |d.settlementLines| {
        assert d'.settlementLines[n] == d.settlementLines[n];
      } else {
        NewLineIsElsewhere(d, d', j, n);
      }
    }
  }

  /** An unbilled entry can still be billed by some later command exactly when its customer has no settlement for its
      month yet: an entry dated into a month already drafted is never billed. */
  lemma BillableExactly(s: State, e: Id)
    requires Inv(s.db) && e < |s.db.entries| && !ReceivableService.OnSettlement(s.db.settlementLines, e)
    ensures (exists calls :: ReceivableService.OnSettlement(Run(s, calls).db.settlementLines, e)) <==>
              !HasSettlement(s.db, s.db.entries[e].customer, s.db.entries[e].date.month)
  {
    var customer, month := s.db.entries[e].customer, s.db.entries[e].date.month;
    if HasSettlement(s.db, customer, month) {
      forall calls ensures !ReceivableService.OnSettlement(Run(s, calls).db.settlementLines, e) {
        StrandedStays(s, calls, e);
      }
    } else {
      DraftReaches(s, e);
    }
  }

  lemma DraftReaches(s: State, e: Id)
    requires e < |s.db.entries| && !ReceivableService.OnSettlement(s.db.settlementLines, e)
    requires !HasSettlement(s.db, s.db.entries[e].customer, s.db.entries[e].date.month)
    ensures exists calls :: ReceivableService.OnSettlement(Run(s, calls).db.settlementLines, e)
  {
    var customer, month := s.db.entries[e].customer, s.db.entries[e].date.month;
    var call := Call(0, 0, DraftSettlement(customer, month, Some(1)));
    assert ReceivableService.Unsettled(s.db, customer, month, e);
    DraftLinesAre(s.db, customer, month, |s.db.entries|);
    assert ReceivableService.DraftSettlement(s.db, customer, month, Some(1)).Done?;
    DraftBillsUnsettled(s.db, customer, month, Some(1), e);
    assert Run(s, [call]) == Next(s, call) by {
      assert [call][..0] == [];
    }
    assert ReceivableService.OnSettlement(Run(s, [call]).db.settlementLines, e);
  }

  /** A refunded credit is posted into a closed month exactly when the refund's own month and the next are both
      closed. */
  lemma RefundLandsInOpenMonth(d: Db, n: Id, amount: int, date: Date, reference: string)
    requires ReceivableService.RefundCredit(d, n, amount, date, reference).Done?
    ensures var d' := ReceivableService.RefundCredit(d, n, amount, date, reference).db;
            var e := d'.entries[|d.entries|];
            ReceivableService.MonthClosed(d', e.customer, e.date.month) <==>
              ReceivableService.MonthClosed(d, e.customer, date.month)
                  && ReceivableService.MonthClosed(d, e.customer, date.month + 1)
  {
  }
}
