/** A stock count freezes its SKU: until the count is closed, no command can touch what it is about to compare. */
module CountFreeze {
  import opened Wrappers
  import opened Tables
  import opened StockInvariant
  import opened OrderService
  import opened Commands
  import opened Invariant
  import StockCountService
  import StockCountInvariant
  import CatalogService

  /** The SKU's balance and every line of it are as before, and lines added since hold nothing. */
  ghost predicate Frozen(d: Db, d': Db, k: Sku) {
    && BalanceOf(d'.balances, k) == BalanceOf(d.balances, k)
    && |d.lines| <= |d'.lines|
    && (forall i: Id | i < |d.lines| :: d'.lines[i].sku == d.lines[i].sku)
    && (forall i: Id | i < |d.lines| && d.lines[i].sku == k :: d'.lines[i] == d.lines[i])
    && (forall i: Id | |d.lines| <= i < |d'.lines| && d'.lines[i].sku == k :: d'.lines[i].reservation == None)
  }

  /** The command writes no count, and a SKU under count stays frozen. */
  ghost predicate KeepsFrozen(d: Db, d': Db, k: Sku) {
    d'.counts == d.counts && (UnderCount(d.counts, k) ==> Frozen(d, d', k))
  }

  // ---------- the loops ----------

  lemma {:induction false} ConfirmFromFreezes(d: Db, o: Id, i: nat, reserved: int, unreserved: int, k: Sku)
    requires o < |d.orders|
    ensures var out := ConfirmFrom(d, o, i, reserved, unreserved); out.Done? ==> KeepsFrozen(d, out.db, k)
    decreases |d.lines| - i
  {
    if i < |d.lines| {
      if d.lines[i].order != o {
        ConfirmFromFreezes(d, o, i + 1, reserved, unreserved, k);
      } else {
        match ConfirmRow(d, i)
        case Stop(_) =>
        case Row(d', quantity) =>
          ConfirmFromFreezes(d', o, i + 1, reserved + quantity, unreserved + d.lines[i].requested - quantity, k);
      }
    }
  }

  lemma {:induction false} AllocateFromFreezes(d: Db, o: Id, i: nat, added: int, waiting: int, k: Sku)
    ensures var out := AllocateFrom(d, o, i, added, waiting); out.Done? ==> KeepsFrozen(d, out.db, k)
    decreases |d.lines| - i
  {
    if i < |d.lines| {
      if d.lines[i].order != o {
        AllocateFromFreezes(d, o, i + 1, added, waiting, k);
      } else {
        match AllocateRow(d, i)
        case Stop(_) =>
        case Row(d', quantity) =>
          AllocateFromFreezes(d', o, i + 1, added + quantity, waiting + Waiting(d.lines[i]) - quantity, k);
      }
    }
  }

  lemma {:induction false} WorkFromFreezes(d: Db, o: Id, stage: Stage, picks: seq<Pick>, n: nat, rows: seq<WorkRow>,
                                           k: Sku)
    ensures var out := WorkFrom(d, o, stage, picks, n, rows); out.Done? ==> KeepsFrozen(d, out.db, k)
    decreases |picks| - n
  {
    if n < |picks| {
      match WorkRowStep(d, o, stage, picks[n])
      case Stop(_) =>
      case Row(d', _) =>
        var l := d'.lines[picks[n].line];
        WorkFromFreezes(d', o, stage, picks, n + 1, rows + [WorkRow(picks[n].line, Picked(l), InspectedOf(l))], k);
    }
  }

  lemma {:induction false} ShipFromFreezes(d: Db, shipment: Id, picks: seq<Pick>, today: Date, n: nat, quantity: int,
                                           k: Sku)
    ensures var row := ShipFrom(d, shipment, picks, today, n, quantity); row.Row? ==> KeepsFrozen(d, row.db, k)
    decreases |picks| - n
  {
    if n < |picks| {
      match ShipRow(d, shipment, picks[n], today)
      case Stop(_) =>
      case Row(d', moved) =>
        ShipFromFreezes(d', shipment, picks, today, n + 1, quantity + moved, k);
    }
  }

  lemma {:induction false} ReleaseFromFreezes(d: Db, o: Id, i: nat, freed: int, k: Sku)
    ensures var row := ReleaseFrom(d, o, i, freed); row.Row? ==> KeepsFrozen(d, row.db, k)
    decreases |d.lines| - i
  {
    if i < |d.lines| {
      if d.lines[i].order != o {
        ReleaseFromFreezes(d, o, i + 1, freed, k);
      } else {
        match ReleaseRow(d, i)
        case Stop(_) =>
        case Row(d', quantity) => ReleaseFromFreezes(d', o, i + 1, freed + quantity, k);
      }
    }
  }

  lemma {:induction false} ReceiveFromFreezes(d: Db, warehouse: Id, rows: seq<ReceiptRow>, n: nat, k: Sku)
    ensures var out := CatalogService.ReceiveFrom(d, warehouse, rows, n); out.Done? ==> KeepsFrozen(d, out.db, k)
    decreases |rows| - n
  {
    if n < |rows| {
      match CatalogService.ReceiveRow(d, warehouse, rows[n], CatalogService.Repeated(rows, n))
      case Stop(_) =>
      case Row(d', _) => ReceiveFromFreezes(d', warehouse, rows, n + 1, k);
    }
  }

  /** Finalizing a count of another SKU walks over that SKU's lines only. */
  lemma {:induction false} CutFromFreezes(d: Db, plan: seq<Id>, n: nat, shortage: int, k: Sku)
    requires forall m | 0 <= m < |plan| :: plan[m] < |d.lines| && d.lines[plan[m]].sku != k
    ensures Frozen(d, StockCountService.CutFrom(d, plan, n, shortage).db, k)
    decreases |plan| - n
  {
    if n < |plan| && shortage != 0 {
      if d.lines[plan[n]].reservation.None? {
        CutFromFreezes(d, plan, n + 1, shortage, k);
      } else {
        var r := d.lines[plan[n]].reservation.value;
        var quantity := Min(shortage, r.quantity - r.shipped);
        CutFromFreezes(StockCountService.CutRow(d, plan[n], quantity), plan, n + 1, shortage - quantity, k);
      }
    }
  }

  // ---------- the commands ----------

  lemma ResetFreezes(d: Db, o: Id, k: Sku)
    requires StockInv(d)
    ensures KeepsFrozen(d, d.(lines := ResetWork(d.lines, o)), k)
  {
    if UnderCount(d.counts, k) {
      forall i: Id | i < |d.lines| && d.lines[i].sku == k ensures Unworked(d.lines[i]) == d.lines[i] {
        assert LineOk(d.orders, d.lines[i]);
      }
    }
  }

  lemma ReleaseOrderFreezes(d: Db, o: Id, k: Sku)
    requires StockInv(d) && o < |d.orders|
    ensures var row := ReleaseOrder(d, o); row.Row? ==> KeepsFrozen(d, row.db, k)
  {
    ResetFreezes(d, o, k);
    ReleaseFromFreezes(d.(lines := ResetWork(d.lines, o)), o, 0, 0, k);
  }

  lemma ShipFreezes(d: Db, actor: Id, picks: seq<Pick>, today: Date, k: Sku)
    ensures var out := OrderService.Ship(d, actor, picks, today); out.Done? ==> KeepsFrozen(d, out.db, k)
  {
    if OrderService.Ship(d, actor, picks, today).Done? {
      assert Shippable(d, picks[0].line);
      var o, warehouse := d.lines[picks[0].line].order, d.lines[picks[0].line].sku.warehouse;
      var started := Assign(d, o, Some(actor)).(shipments := d.shipments + [Shipment(o, warehouse)]);
      ShipFromFreezes(started, |d.shipments|, picks, today, 0, 0, k);
    }
  }

  lemma FinalizeFreezes(d: Db, c: Id, result: int, k: Sku)
    requires c < |d.counts| && d.counts[c].sku != k
    ensures var out := StockCountService.Finalize(d, c, result); out.Done? ==> Frozen(d, out.db, k)
  {
    if StockCountService.Finalize(d, c, result).Done? {
      var x := d.counts[c].sku;
      CutFromFreezes(d, StockCountService.NewestFirst(d, x, |d.lines|), 0, Max(0, d.balances[x].reserved - result), k);
    }
  }

  lemma OrderOpFreezes(d: Db, actor: Id, op: Op, k: Sku)
    requires IsOrderOp(op) && !(op.CancelOrder? || op.RequestCancellation? || op.ReviewCancellation?)
    ensures var out := Apply(d, actor, op); out.Done? ==> KeepsFrozen(d, out.db, k)
  {
    if Apply(d, actor, op).Done? {
      match op {
        case SubmitOrder(_, _, _, _, _, _) =>
        case ClaimWork(_) =>
        case ReleaseWork(_) =>
        case ConfirmOrder(o) => ConfirmFromFreezes(d, o, 0, 0, 0, k);
        case AllocateOrder(o) => AllocateFromFreezes(d, o, 0, 0, 0, k);
        case SetWork(o, stage, picks) => WorkFromFreezes(d, o, stage, picks, 0, [], k);
        case Ship(picks, today) => ShipFreezes(d, actor, picks, today, k);
      }
    }
  }

  lemma CancelFreezes(d: Db, o: Id, k: Sku)
    requires StockInv(d) && OrderService.Cancel(d, o).Done?
    ensures KeepsFrozen(d, OrderService.Cancel(d, o).db, k)
  {
    ReleaseOrderFreezes(d, o, k);
  }

  lemma RequestCancellationFreezes(d: Db, customer: Id, o: Id, k: Sku)
    requires StockInv(d) && OrderService.RequestCancellation(d, customer, o).Done?
    ensures var d' := OrderService.RequestCancellation(d, customer, o).db; KeepsFrozen(d, d', k)
  {
    ResetFreezes(d, o, k);
  }

  lemma ReviewFreezes(d: Db, q: Id, approve: bool, k: Sku)
    requires StockInv(d) && OrderService.Review(d, q, approve).Done?
    ensures var d' := OrderService.Review(d, q, approve).db; KeepsFrozen(d, d', k)
  {
    ReleaseOrderFreezes(d, d.cancelRequests[q].order, k);
  }

  lemma CancelOpFreezes(d: Db, actor: Id, op: Op, k: Sku)
    requires StockInv(d) && Apply(d, actor, op).Done?
    requires op.CancelOrder? || op.RequestCancellation? || op.ReviewCancellation?
    ensures KeepsFrozen(d, Apply(d, actor, op).db, k)
  {
    match op {
      case CancelOrder(o) => CancelFreezes(d, o, k);
      case RequestCancellation(customer, o) => RequestCancellationFreezes(d, customer, o, k);
      case ReviewCancellation(q, approve) => ReviewFreezes(d, q, approve, k);
    }
  }

  /** The count is as it was, and so is what it counts. */
  ghost predicate StillCounting(d: Db, d': Db, c: Id)
    requires c < |d.counts|
  {
    c < |d'.counts| && d'.counts[c] == d.counts[c] && Frozen(d, d', d.counts[c].sku)
  }

  predicate OnCount(op: Op, c: Id) {
    (op.FinalizeCount? || op.CancelCount?) && op.count == c
  }

  lemma CountOpFreezes(d: Db, actor: Id, op: Op, c: Id)
    requires StockInv(d) && c < |d.counts| && d.counts[c].status == Counting && !OnCount(op, c)
    requires op.StartCount? || op.FinalizeCount? || op.CancelCount?
    ensures Apply(d, actor, op).Done? ==> StillCounting(d, Apply(d, actor, op).db, c)
  {
    if op.FinalizeCount? && op.count < |d.counts| && d.counts[op.count].status == Counting {
      FinalizeFreezes(d, op.count, op.result, d.counts[c].sku);
    }
  }

  lemma MoveOpFreezes(d: Db, actor: Id, op: Op, c: Id)
    requires StockInv(d) && c < |d.counts| && d.counts[c].status == Counting
    requires op.AdjustStock? || op.ReceiveStock? || op.InspectReturn?
    ensures Apply(d, actor, op).Done? ==> StillCounting(d, Apply(d, actor, op).db, c)
  {
    assert UnderCount(d.counts, d.counts[c].sku);
    if op.ReceiveStock? {
      ReceiveFromFreezes(d, op.warehouse, op.receipt, 0, d.counts[c].sku);
    }
  }

  /** Finalizing or cancelling a running count closes it. */
  lemma ClosingCloses(d: Db, actor: Id, op: Op, c: Id)
    requires c < |d.counts| && OnCount(op, c) && Apply(d, actor, op).Done?
    ensures c < |Apply(d, actor, op).db.counts| && Apply(d, actor, op).db.counts[c].status != Counting
  {
  }

  /** No other command touches a running count or what it counts. */
  lemma ApplyFreezes(d: Db, actor: Id, op: Op, c: Id)
    requires StockInv(d) && c < |d.counts| && d.counts[c].status == Counting && !OnCount(op, c)
    requires Apply(d, actor, op).Done?
    ensures StillCounting(d, Apply(d, actor, op).db, c)
  {
    var k := d.counts[c].sku;
    assert UnderCount(d.counts, k);
    if op.StartCount? || op.FinalizeCount? || op.CancelCount? {
      CountOpFreezes(d, actor, op, c);
    } else if op.AdjustStock? || op.ReceiveStock? || op.InspectReturn? {
      MoveOpFreezes(d, actor, op, c);
    } else if op.CancelOrder? || op.RequestCancellation? || op.ReviewCancellation? {
      CancelOpFreezes(d, actor, op, k);
    } else if IsOrderOp(op) {
      OrderOpFreezes(d, actor, op, k);
    } else if IsReturnOp(op) {
      ReturnOpFreezes(d, actor, op, k);
    } else {
      MoneyOpFreezes(d, actor, op, k);
    }
  }

  lemma UnwrittenIsFrozen(d: Db, d': Db, k: Sku)
    requires d'.balances == d.balances && d'.lines == d.lines && d'.counts == d.counts
    ensures KeepsFrozen(d, d', k)
  {
  }

  lemma ReturnOpFreezes(d: Db, actor: Id, op: Op, k: Sku)
    requires op.RequestReturn? || op.CreditReturn? || op.DisposeDefect? || op.ResolveDefect?
    ensures var out := Apply(d, actor, op); out.Done? ==> KeepsFrozen(d, out.db, k)
  {
    if Apply(d, actor, op).Done? {
      UnwrittenIsFrozen(d, Apply(d, actor, op).db, k);
    }
  }

  lemma MoneyOpFreezes(d: Db, actor: Id, op: Op, k: Sku)
    requires !IsOrderOp(op) && !IsStockOp(op) && !IsReturnOp(op)
    ensures var out := Apply(d, actor, op); out.Done? ==> KeepsFrozen(d, out.db, k)
  {
    if Apply(d, actor, op).Done? {
      UnwrittenIsFrozen(d, Apply(d, actor, op).db, k);
    }
  }

  // ---------- snapshots ----------

  predicate IsCountOp(op: Op) {
    op.StartCount? || op.FinalizeCount? || op.CancelCount?
  }

  lemma CountsUnwritten(d: Db, actor: Id, op: Op)
    requires StockInv(d) && Apply(d, actor, op).Done? && !IsCountOp(op)
    ensures Apply(d, actor, op).db.counts == d.counts
  {
    var k := Sku(0, 0);
    if op.AdjustStock? || op.ReceiveStock? || op.InspectReturn? {
      if op.ReceiveStock? {
        ReceiveFromFreezes(d, op.warehouse, op.receipt, 0, k);
      }
    } else if op.CancelOrder? || op.RequestCancellation? || op.ReviewCancellation? {
      CancelOpFreezes(d, actor, op, k);
    } else if IsOrderOp(op) {
      OrderOpFreezes(d, actor, op, k);
    } else if IsReturnOp(op) {
      ReturnOpFreezes(d, actor, op, k);
    } else {
      MoneyOpFreezes(d, actor, op, k);
    }
  }

  /** A count that runs after a command ran before it, or is the one the command started. */
  lemma RunningWasRunning(d: Db, actor: Id, op: Op, c: Id)
    requires StockInv(d) && Apply(d, actor, op).Done?
    requires c < |Apply(d, actor, op).db.counts| && Apply(d, actor, op).db.counts[c].status == Counting
    ensures if c < |d.counts| then d.counts[c].status == Counting && !OnCount(op, c)
            else
              && op.StartCount? && Apply(d, actor, op).db.counts[c].sku == op.sku
              && Apply(d, actor, op).db.counts[c].snapshot == BalanceOf(Apply(d, actor, op).db.balances, op.sku)
  {
    if !IsCountOp(op) {
      CountsUnwritten(d, actor, op);
    }
  }

  /** Every command keeps the snapshots of all running counts equal to the balances they were taken from. */
  lemma ApplyKeepsSnapshots(d: Db, actor: Id, op: Op)
    requires Inv(d) && SnapshotsOk(d.counts, d.balances) && Apply(d, actor, op).Done?
    ensures SnapshotsOk(Apply(d, actor, op).db.counts, Apply(d, actor, op).db.balances)
  {
    ApplyKeeps(d, actor, op);
    var d' := Apply(d, actor, op).db;
    forall c: Id | c < |d'.counts| && d'.counts[c].status == Counting
      ensures d'.counts[c].sku in d'.balances && d'.balances[d'.counts[c].sku] == d'.counts[c].snapshot
    {
      RunningWasRunning(d, actor, op, c);
      if c < |d.counts| {
        ApplyFreezes(d, actor, op, c);
      }
    }
  }

  lemma NextKeepsSnapshots(s: State, call: Call)
    requires Inv(s.db) && SnapshotsOk(s.db.counts, s.db.balances)
    ensures SnapshotsOk(Next(s, call).db.counts, Next(s, call).db.balances)
  {
    if !Refused(call.op) && !Stored(s, call) && Apply(s.db, call.actor, call.op).Done? {
      ApplyKeepsSnapshots(s.db, call.actor, call.op);
    }
  }

  lemma {:induction false} ReachableSnapshots(calls: seq<Call>)
    ensures SnapshotsOk(Run(START, calls).db.counts, Run(START, calls).db.balances)
  {
    if calls != [] {
      ReachableSnapshots(calls[..|calls| - 1]);
      ReachableInv(calls[..|calls| - 1]);
      NextKeepsSnapshots(Run(START, calls[..|calls| - 1]), calls[|calls| - 1]);
    }
  }

  // ---------- runs ----------

  lemma FrozenTransitive(d: Db, e: Db, f: Db, k: Sku)
    requires Frozen(d, e, k) && Frozen(e, f, k)
    ensures Frozen(d, f, k)
  {
  }

  lemma NextFreezes(s: State, call: Call, c: Id)
    requires StockInv(s.db) && c < |s.db.counts| && s.db.counts[c].status == Counting && !OnCount(call.op, c)
    ensures StillCounting(s.db, Next(s, call).db, c)
  {
    if Apply(s.db, call.actor, call.op).Done? {
      ApplyFreezes(s.db, call.actor, call.op, c);
    }
  }

  lemma {:induction false} FreezeLasts(s: State, c: Id, calls: seq<Call>)
    requires Inv(s.db) && c < |s.db.counts| && s.db.counts[c].status == Counting
    requires forall n | 0 <= n < |calls| :: !OnCount(calls[n].op, c)
    ensures StillCounting(s.db, Run(s, calls).db, c)
  {
    if calls != [] {
      var init, last := calls[..|calls| - 1], calls[|calls| - 1];
      FreezeLasts(s, c, init);
      RunKeeps(s, init);
      NextFreezes(Run(s, init), last, c);
      FrozenTransitive(s.db, Run(s, init).db, Run(s, calls).db, s.db.counts[c].sku);
    }
  }

  /** However other commands interleave with a running count, the SKU's balance stays the count's snapshot, its
      reservations stay as they were, and nothing of it is picked or inspected. */
  lemma CountedSkuIsFrozen(calls: seq<Call>, more: seq<Call>, c: Id)
    requires c < |Run(START, calls).db.counts| && Run(START, calls).db.counts[c].status == Counting
    requires forall n | 0 <= n < |more| :: !OnCount(more[n].op, c)
    ensures var d, d' := Run(START, calls).db, Run(START, calls + more).db;
            && c < |d'.counts| && d'.counts[c] == d.counts[c]
            && var k := d.counts[c].sku;
               && Frozen(d, d', k)
               && k in d'.balances && d'.balances[k] == d.counts[c].snapshot
               && forall i: Id | i < |d'.lines| && d'.lines[i].sku == k ::
                   Picked(d'.lines[i]) == 0 && InspectedOf(d'.lines[i]) == 0
  {
    ReachableInv(calls);
    ReachableInv(calls + more);
    ReachableSnapshots(calls + more);
    RunConcat(START, calls, more);
    FreezeLasts(Run(START, calls), c, more);
    var d' := Run(START, calls + more).db;
    StockCountInvariant.CountIsClean(d', c);
    assert d'.counts[c].status == Counting;
    forall i: Id | i < |d'.lines| && d'.lines[i].sku == d'.counts[c].sku ensures InspectedOf(d'.lines[i]) == 0 {
      assert LineOk(d'.orders, d'.lines[i]);
    }
  }
}
