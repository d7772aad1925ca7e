/** The order commands keep the stock invariant. */
module OrderInvariant {
  import opened Wrappers
  import opened Tables
  import opened Sums
  import opened Totals
  import opened OrderService
  import opened StockInvariant

  // ---------- small facts ----------

  /** What a line holds is part of what its SKU's balance has reserved. */
  lemma OpenIsReserved(d: Db, i: Id)
    requires StockInv(d) && i < |d.lines|
    ensures 0 <= Open(d.lines[i]) <= BalanceOf(d.balances, d.lines[i].sku).reserved
    ensures Open(d.lines[i]) > 0 ==> d.lines[i].sku in d.balances
    ensures IsActive(d.lines[i]) <==> Open(d.lines[i]) > 0
  {
    var k := d.lines[i].sku;
    assert BalanceOk(d.balances, d.lines, d.movements, k);
    SumBounds(d.lines, OpenAt(k), i);
  }

  lemma AvailableIsFree(d: Db, k: Sku)
    requires StockInv(d)
    ensures Available(d.balances, k) == BalanceOf(d.balances, k).onHand - BalanceOf(d.balances, k).reserved
    ensures Available(d.balances, k) > 0 ==> k in d.balances
  {
    assert BalanceOk(d.balances, d.lines, d.movements, k);
  }

  // ---------- submit ----------

  lemma SubmitKeeps(d: Db, customer: Id, warehouse: Id, partiesActive: bool, items: seq<Item>, createdAt: int,
                    uuid: int)
    requires StockInv(d)
    ensures var out := Submit(d, customer, warehouse, partiesActive, items, createdAt, uuid);
            out.Done? ==> StockInv(out.db)
  {
    var out := Submit(d, customer, warehouse, partiesActive, items, createdAt, uuid);
    if out.Done? {
      var added := NewLines(|d.orders|, warehouse, items);
      assert out.db.lines == d.lines + added;
      forall k ensures BalanceOk(out.db.balances, out.db.lines, out.db.movements, k) {
        assert BalanceOk(d.balances, d.lines, d.movements, k);
        SumConcat(d.lines, added, OpenAt(k));
        SumZero(added, OpenAt(k));
      }
      forall i: Id ensures EventOk(out.db.events, out.db.lines, i) {
        assert EventOk(d.events, d.lines, i);
      }
      SubmitKeepsRest(d, out.db, added);
    }
  }

  lemma SubmitKeepsRest(d: Db, d': Db, added: seq<Line>)
    requires LinesOk(d.orders, d.lines)
    requires RequestsOk(d.cancelRequests, d.orders, d.lines) && CountsOk(d.counts, d.balances, d.lines)
    requires d'.cancelRequests == d.cancelRequests && d'.counts == d.counts && d'.balances == d.balances
    requires |d'.orders| == |d.orders| + 1 && d'.orders[..|d.orders|] == d.orders
    requires d'.lines == d.lines + added
    requires forall i | 0 <= i < |added| ::
               added[i].order == |d.orders| && LineOk(d'.orders, added[i]) && added[i].reservation == None
    requires forall i, j | 0 <= i < j < |added| :: added[i].sku != added[j].sku
    ensures LinesOk(d'.orders, d'.lines)
    ensures RequestsOk(d'.cancelRequests, d'.orders, d'.lines) && CountsOk(d'.counts, d'.balances, d'.lines)
  {
    forall i | 0 <= i < |d.lines| ensures LineOk(d'.orders, d.lines[i]) {
      assert LineOk(d.orders, d.lines[i]);
      assert d'.orders[..|d.orders|][d.lines[i].order] == d'.orders[d.lines[i].order];
    }
    forall q | 0 <= q < |d.cancelRequests| && d.cancelRequests[q].status == Pending
      ensures d'.orders[d.cancelRequests[q].order] == d.orders[d.cancelRequests[q].order]
    {
      assert d'.orders[..|d.orders|][d.cancelRequests[q].order] == d'.orders[d.cancelRequests[q].order];
    }
  }

  // ---------- confirm ----------

  /** The database a confirmation ends in, seen while its rows are still being written. */
  function AsConfirmed(d: Db, o: Id): Db
    requires o < |d.orders|
  {
    d.(orders := d.orders[o := d.orders[o].(status := Confirmed)])
  }

  lemma ConfirmRowKeeps(d: Db, o: Id, i: Id)
    requires o < |d.orders| && i < |d.lines| && d.lines[i].order == o && d.lines[i].reservation == None
    requires StockInv(AsConfirmed(d, o))
    ensures ConfirmRow(d, i).Row? ==> StockInv(AsConfirmed(ConfirmRow(d, i).db, o))
  {
    var row := ConfirmRow(d, i);
    var l := d.lines[i];
    if row.Row? && row.moved != 0 {
      AvailableIsFree(AsConfirmed(d, o), l.sku);
      OpenIsReserved(AsConfirmed(d, o), i);
      LineChange(AsConfirmed(d, o), AsConfirmed(row.db, o), i, row.db.lines[i], row.db.balances[l.sku],
                 Some(Event(i, Created, row.moved)), None);
    }
  }

  lemma {:induction false} ConfirmFromKeeps(d: Db, o: Id, i: nat, reserved: int, unreserved: int)
    requires o < |d.orders| && StockInv(AsConfirmed(d, o))
    requires forall j | i <= j < |d.lines| && d.lines[j].order == o :: d.lines[j].reservation == None
    ensures var out := ConfirmFrom(d, o, i, reserved, unreserved); out.Done? ==> StockInv(out.db)
    decreases |d.lines| - i
  {
    if i < |d.lines| {
      if d.lines[i].order != o {
        ConfirmFromKeeps(d, o, i + 1, reserved, unreserved);
      } else {
        ConfirmRowKeeps(d, o, i);
        match ConfirmRow(d, i)
        case Stop(_) =>
        case Row(d', quantity) =>
          ConfirmFromKeeps(d', o, i + 1, reserved + quantity, unreserved + d.lines[i].requested - quantity);
      }
    }
  }

  lemma ConfirmKeeps(d: Db, o: Id)
    requires StockInv(d)
    ensures Confirm(d, o).Done? ==> StockInv(Confirm(d, o).db)
  {
    if o < |d.orders| && d.orders[o].status == Submitted {
      var d' := AsConfirmed(d, o);
      forall i | 0 <= i < |d.lines| ensures LineOk(d'.orders, d.lines[i]) {
        assert LineOk(d.orders, d.lines[i]);
      }
      ConfirmFromKeeps(d, o, 0, 0, 0);
    }
  }

  // ---------- allocate ----------

  ghost predicate Allocatable(d: Db, o: Id) {
    StockInv(d) && o < |d.orders| && d.orders[o].status == Confirmed && !HasPending(d.cancelRequests, o)
  }

  lemma AllocateRowKeeps(d: Db, o: Id, i: Id)
    requires Allocatable(d, o) && i < |d.lines| && d.lines[i].order == o
    ensures AllocateRow(d, i).Row? ==> Allocatable(AllocateRow(d, i).db, o)
  {
    var row := AllocateRow(d, i);
    var l := d.lines[i];
    assert LineOk(d.orders, l);
    if row.Row? && row.moved != 0 {
      AvailableIsFree(d, l.sku);
      OpenIsReserved(d, i);
      LineChange(d, row.db, i, row.db.lines[i], row.db.balances[l.sku], Some(Event(i, Created, row.moved)), None);
    }
  }

  ghost predicate AllocationKeeps(kept: Db -> bool, o: Id) {
    forall e: Db, j: Id | kept(e) && j < |e.lines| && e.lines[j].order == o ::
      AllocateRow(e, j).Row? ==> kept(AllocateRow(e, j).db)
  }

  /** Whatever every row of the walk keeps, the walk keeps. */
  lemma {:induction false} AllocateFromPreserves(kept: Db -> bool, d: Db, o: Id, i: nat, added: int, waiting: int)
    requires kept(d) && AllocationKeeps(kept, o)
    ensures var out := AllocateFrom(d, o, i, added, waiting); out.Done? ==> kept(out.db)
    decreases |d.lines| - i
  {
    if i < |d.lines| {
      if d.lines[i].order != o {
        AllocateFromPreserves(kept, d, o, i + 1, added, waiting);
      } else {
        match AllocateRow(d, i)
        case Stop(_) =>
        case Row(d', quantity) =>
          AllocateFromPreserves(kept, d', o, i + 1, added + quantity, waiting + Waiting(d.lines[i]) - quantity);
      }
    }
  }

  lemma AllocateKeeps(d: Db, o: Id)
    requires StockInv(d)
    ensures Allocate(d, o).Done? ==> StockInv(Allocate(d, o).db)
  {
    if Allocate(d, o).Done? {
      var kept := (e: Db) => Allocatable(e, o);
      forall e: Db, j: Id | kept(e) && j < |e.lines| && e.lines[j].order == o
        ensures AllocateRow(e, j).Row? ==> kept(AllocateRow(e, j).db)
      {
        AllocateRowKeeps(e, o, j);
      }
      AllocateFromPreserves(kept, d, o, 0, 0, 0);
    }
  }

  // ---------- warehouse work ----------

  lemma AssignKeeps(d: Db, o: Id, assignee: Option<Id>)
    requires StockInv(d) && o < |d.orders|
    requires assignee == None || (d.orders[o].status == Confirmed && !HasPending(d.cancelRequests, o))
    ensures StockInv(Assign(d, o, assignee))
  {
    var d' := Assign(d, o, assignee);
    forall i | 0 <= i < |d.lines| ensures LineOk(d'.orders, d.lines[i]) {
      assert LineOk(d.orders, d.lines[i]);
    }
  }

  lemma WorkRowKeeps(d: Db, o: Id, stage: Stage, pick: Pick)
    requires StockInv(d) && !HasPending(d.cancelRequests, o) && pick.quantity >= 0
    ensures var row := WorkRowStep(d, o, stage, pick); row.Row? ==> StockInv(row.db)
  {
    var row := WorkRowStep(d, o, stage, pick);
    if row.Row? {
      var l := d.lines[pick.line];
      assert LineOk(d.orders, l);
      assert BalanceOk(d.balances, d.lines, d.movements, l.sku);
      LineChange(d, row.db, pick.line, row.db.lines[pick.line], BalanceOf(d.balances, l.sku), None, None);
    }
  }

  lemma {:induction false} WorkFromKeeps(d: Db, o: Id, stage: Stage, picks: seq<Pick>, n: nat, rows: seq<WorkRow>)
    requires StockInv(d) && !HasPending(d.cancelRequests, o)
    requires forall m | 0 <= m < |picks| :: picks[m].quantity >= 0
    ensures var out := WorkFrom(d, o, stage, picks, n, rows); out.Done? ==> StockInv(out.db)
    decreases |picks| - n
  {
    if n < |picks| {
      WorkRowKeeps(d, o, stage, picks[n]);
      match WorkRowStep(d, o, stage, picks[n])
      case Stop(_) =>
      case Row(d', _) =>
        var l := d'.lines[picks[n].line];
        WorkFromKeeps(d', o, stage, picks, n + 1, rows + [WorkRow(picks[n].line, Picked(l), InspectedOf(l))]);
    }
  }

  lemma SetWorkKeeps(d: Db, actor: Id, o: Id, stage: Stage, picks: seq<Pick>)
    requires StockInv(d)
    ensures var out := SetWork(d, actor, o, stage, picks); out.Done? ==> StockInv(out.db)
  {
    if SetWork(d, actor, o, stage, picks).Done? {
      WorkFromKeeps(d, o, stage, picks, 0, []);
    }
  }

  lemma ClaimKeeps(d: Db, actor: Id, o: Id)
    requires StockInv(d)
    ensures Claim(d, actor, o).Done? ==> StockInv(Claim(d, actor, o).db)
  {
    if Claim(d, actor, o).Done? {
      AssignKeeps(d, o, Some(actor));
    }
  }

  lemma ReleaseWorkKeeps(d: Db, actor: Id, o: Id)
    requires StockInv(d)
    ensures ReleaseWork(d, actor, o).Done? ==> StockInv(ReleaseWork(d, actor, o).db)
  {
    if ReleaseWork(d, actor, o).Done? {
      AssignKeeps(d, o, None);
    }
  }

  // ---------- ship ----------

  lemma ShipRowKeeps(d: Db, shipment: Id, pick: Pick, today: Date)
    requires StockInv(d) && pick.quantity >= 1
    requires pick.line < |d.lines| ==> !HasPending(d.cancelRequests, d.lines[pick.line].order)
    ensures var row := ShipRow(d, shipment, pick, today); row.Row? ==> StockInv(row.db)
  {
    var row := ShipRow(d, shipment, pick, today);
    if row.Row? {
      var l := d.lines[pick.line];
      assert LineOk(d.orders, l);
      assert BalanceOk(d.balances, d.lines, d.movements, l.sku);
      LineChange(d, row.db, pick.line, row.db.lines[pick.line], row.db.balances[l.sku],
                 Some(Event(pick.line, Sent, pick.quantity)), Some(Movement(l.sku, Dispatched, -pick.quantity)));
    }
  }

  lemma {:induction false} ShipFromKeeps(d: Db, shipment: Id, o: Id, picks: seq<Pick>, today: Date, n: nat,
                                         quantity: int)
    requires StockInv(d) && !HasPending(d.cancelRequests, o)
    requires forall m | 0 <= m < |picks| ::
               picks[m].quantity >= 1 && picks[m].line < |d.lines| && d.lines[picks[m].line].order == o
    ensures var row := ShipFrom(d, shipment, picks, today, n, quantity); row.Row? ==> StockInv(row.db)
    decreases |picks| - n
  {
    if n < |picks| {
      ShipRowKeeps(d, shipment, picks[n], today);
      match ShipRow(d, shipment, picks[n], today)
      case Stop(_) =>
      case Row(d', moved) =>
        ShipFromKeeps(d', shipment, o, picks, today, n + 1, quantity + moved);
    }
  }

  /** All picks are of the order, which nobody asked to cancel. */
  ghost predicate PicksOf(d: Db, o: Id, picks: seq<Pick>) {
    && !HasPending(d.cancelRequests, o)
    && (forall m: Id | m < |picks| ::
        picks[m].quantity >= 1 && picks[m].line < |d.lines| && d.lines[picks[m].line].order == o)
  }

  /** The row keeps `kept`, or stops the loop with an error that is not one of those it never stops with. */
  ghost predicate RowKeeps(kept: (Db, nat) -> bool, never: set<Error>, d: Db, shipment: Id, picks: seq<Pick>,
                           today: Date, n: nat)
    requires n < |picks|
  {
    match ShipRow(d, shipment, picks[n], today)
    case Stop(error) => error !in never
    case Row(d', _) => kept(d', n + 1)
  }

  ghost predicate RowsKeep(kept: (Db, nat) -> bool, never: set<Error>, shipment: Id, picks: seq<Pick>, today: Date) {
    forall e: Db, m: nat {:trigger kept(e, m)} | kept(e, m) && m < |picks| ::
      RowKeeps(kept, never, e, shipment, picks, today, m)
  }

  /** Whatever every row of the shipping loop keeps, the loop keeps to its end, and it never stops where no row does. */
  lemma {:induction false} ShipFromPreserves(kept: (Db, nat) -> bool, never: set<Error>, d: Db, shipment: Id,
                                             picks: seq<Pick>, today: Date, n: nat, quantity: int)
    requires kept(d, n) && n <= |picks| && RowsKeep(kept, never, shipment, picks, today)
    ensures match ShipFrom(d, shipment, picks, today, n, quantity)
            case Stop(error) => error !in never
            case Row(d', _) => kept(d', |picks|)
    decreases |picks| - n
  {
    if n < |picks| {
      assert RowKeeps(kept, never, d, shipment, picks, today, n);
      match ShipRow(d, shipment, picks[n], today)
      case Stop(_) =>
      case Row(d', moved) => ShipFromPreserves(kept, never, d', shipment, picks, today, n + 1, quantity + moved);
    }
  }

  lemma ShipKeeps(d: Db, actor: Id, picks: seq<Pick>, today: Date)
    requires StockInv(d)
    ensures var out := Ship(d, actor, picks, today); out.Done? ==> StockInv(out.db)
  {
    var out := Ship(d, actor, picks, today);
    if out.Done? {
      assert Shippable(d, picks[0].line);
      var o, warehouse := d.lines[picks[0].line].order, d.lines[picks[0].line].sku.warehouse;
      assert LineOk(d.orders, d.lines[picks[0].line]);
      AssignKeeps(d, o, Some(actor));
      var started := Assign(d, o, Some(actor)).(shipments := d.shipments + [Shipment(o, warehouse)]);
      assert StockInv(started);
      ShipFromKeeps(started, |d.shipments|, o, picks, today, 0, 0);
      AssignKeeps(ShipFrom(started, |d.shipments|, picks, today, 0, 0).db, o, None);
    }
  }

  // ---------- cancel ----------

  lemma ResetKeeps(d: Db, o: Id)
    requires StockInv(d)
    ensures StockInv(d.(lines := ResetWork(d.lines, o)))
  {
    var reset := ResetWork(d.lines, o);
    forall i | 0 <= i < |d.lines| ensures LineOk(d.orders, reset[i]) {
      assert LineOk(d.orders, d.lines[i]);
    }
    forall k ensures BalanceOk(d.balances, reset, d.movements, k) {
      assert BalanceOk(d.balances, d.lines, d.movements, k);
      SumEqual(d.lines, OpenAt(k), reset, OpenAt(k));
    }
    forall i: Id ensures EventOk(d.events, reset, i) {
      assert EventOk(d.events, d.lines, i);
    }
  }

  /** `requests` is the request table the transaction ends with. */
  lemma ReleaseRowKeeps(d: Db, requests: seq<CancelRequest>, i: Id)
    requires i < |d.lines| && StockInv(d.(cancelRequests := requests)) && Picked(d.lines[i]) == 0
    ensures ReleaseRow(d, i).Row? ==> StockInv(ReleaseRow(d, i).db.(cancelRequests := requests))
    ensures ReleaseRow(d, i).Row? ==> !IsActive(ReleaseRow(d, i).db.lines[i])
  {
    var row := ReleaseRow(d, i);
    var l := d.lines[i];
    assert LineOk(d.orders, l);
    if row.Row? && row.moved != 0 {
      assert BalanceOk(d.balances, d.lines, d.movements, l.sku);
      OpenIsReserved(d.(cancelRequests := requests), i);
      LineChange(d.(cancelRequests := requests), row.db.(cancelRequests := requests), i, row.db.lines[i],
                 row.db.balances[l.sku], Some(Event(i, Freed, row.moved)), None);
    }
  }

  /** The order's work is dropped, and its lines before `i` are released. */
  ghost predicate Releasing(d: Db, requests: seq<CancelRequest>, o: Id, i: nat) {
    && StockInv(d.(cancelRequests := requests))
    && (forall j | 0 <= j < |d.lines| && d.lines[j].order == o :: Picked(d.lines[j]) == 0)
    && (forall j | 0 <= j < |d.lines| && j < i && d.lines[j].order == o :: !IsActive(d.lines[j]))
  }

  lemma ReleaseRowAdvances(d: Db, requests: seq<CancelRequest>, o: Id, i: Id)
    requires Releasing(d, requests, o, i) && i < |d.lines|
    ensures d.lines[i].order != o ==> Releasing(d, requests, o, i + 1)
    ensures d.lines[i].order == o && ReleaseRow(d, i).Row? ==> Releasing(ReleaseRow(d, i).db, requests, o, i + 1)
  {
    if d.lines[i].order == o {
      ReleaseRowKeeps(d, requests, i);
    }
  }

  ghost predicate ReleaseAdvances(kept: (Db, nat) -> bool, d: Db, o: Id, i: nat)
    requires i < |d.lines|
  {
    && (d.lines[i].order != o ==> kept(d, i + 1))
    && (d.lines[i].order == o && ReleaseRow(d, i).Row? ==> kept(ReleaseRow(d, i).db, i + 1))
  }

  ghost predicate ReleaseKeeps(kept: (Db, nat) -> bool, o: Id) {
    forall e: Db, j: nat {:trigger kept(e, j)} | kept(e, j) && j < |e.lines| :: ReleaseAdvances(kept, e, o, j)
  }

  lemma {:induction false} ReleaseFromPreserves(kept: (Db, nat) -> bool, d: Db, o: Id, i: nat, freed: int)
    requires kept(d, i) && ReleaseKeeps(kept, o)
    ensures var row := ReleaseFrom(d, o, i, freed);
            row.Row? ==> exists n: nat :: n >= |row.db.lines| && kept(row.db, n)
    decreases |d.lines| - i
  {
    if i < |d.lines| {
      assert ReleaseAdvances(kept, d, o, i);
      if d.lines[i].order != o {
        ReleaseFromPreserves(kept, d, o, i + 1, freed);
      } else {
        match ReleaseRow(d, i)
        case Stop(_) =>
        case Row(d', quantity) =>
          ReleaseFromPreserves(kept, d', o, i + 1, freed + quantity);
      }
    }
  }

  lemma ReleaseFromKeeps(d: Db, requests: seq<CancelRequest>, o: Id)
    requires Releasing(d, requests, o, 0)
    ensures var row := ReleaseFrom(d, o, 0, 0);
            row.Row? ==>
              && StockInv(row.db.(cancelRequests := requests))
              && forall j | 0 <= j < |row.db.lines| && row.db.lines[j].order == o :: !IsActive(row.db.lines[j])
  {
    var kept := (e: Db, j: nat) => Releasing(e, requests, o, j);
    forall e: Db, j: nat | kept(e, j) && j < |e.lines| ensures ReleaseAdvances(kept, e, o, j) {
      ReleaseRowAdvances(e, requests, o, j);
    }
    ReleaseFromPreserves(kept, d, o, 0, 0);
  }

  /** Releasing an order whose pending requests, if any, are settled in the same transaction. */
  lemma ReleaseOrderKeeps(d: Db, requests: seq<CancelRequest>, o: Id)
    requires o < |d.orders| && StockInv(d.(cancelRequests := requests))
    requires d.orders[o].status == Confirmed && !HasPending(requests, o)
    ensures var row := ReleaseOrder(d, o); row.Row? ==> StockInv(row.db.(cancelRequests := requests))
  {
    var row := ReleaseOrder(d, o);
    if row.Row? {
      var settled := d.(cancelRequests := requests);
      ResetKeeps(settled, o);
      var reset := d.(lines := ResetWork(d.lines, o));
      assert reset.(cancelRequests := requests) == settled.(lines := ResetWork(d.lines, o));
      ReleaseFromKeeps(reset, requests, o);
      var released := ReleaseFrom(reset, o, 0, 0).db.(cancelRequests := requests);
      forall i | 0 <= i < |released.lines| ensures LineOk(row.db.orders, released.lines[i]) {
        assert LineOk(released.orders, released.lines[i]);
      }
      assert LinesOk(row.db.orders, released.lines);
    }
  }

  lemma CancelKeeps(d: Db, o: Id)
    requires StockInv(d)
    ensures Cancel(d, o).Done? ==> StockInv(Cancel(d, o).db)
  {
    if Cancel(d, o).Done? {
      assert d.(cancelRequests := d.cancelRequests) == d;
      ReleaseOrderKeeps(d, d.cancelRequests, o);
      var db := Cancel(d, o).db;
      assert db.(cancelRequests := d.cancelRequests) == db;
    }
  }

  lemma RequestCancellationKeeps(d: Db, customer: Id, o: Id)
    requires StockInv(d)
    ensures var out := RequestCancellation(d, customer, o); out.Done? ==> StockInv(out.db)
  {
    var out := RequestCancellation(d, customer, o);
    if out.Done? {
      AssignKeeps(d, o, None);
      var returned := Assign(d, o, None);
      ResetKeeps(returned, o);
      assert StockInv(returned.(lines := ResetWork(d.lines, o)));
      var lines := out.db.lines;
      forall i | 0 <= i < |lines| && lines[i].order == o ensures Picked(lines[i]) == 0 {
      }
    }
  }

  lemma ReviewKeeps(d: Db, q: Id, approve: bool)
    requires StockInv(d)
    ensures Review(d, q, approve).Done? ==> StockInv(Review(d, q, approve).db)
  {
    if Review(d, q, approve).Done? {
      var o := d.cancelRequests[q].order;
      if approve {
        var requests := Reviewed(d, q, Approved).cancelRequests;
        assert StockInv(d.(cancelRequests := requests));
        ReleaseOrderKeeps(d, requests, o);
      } else {
        assert StockInv(Reviewed(d, q, Rejected));
      }
    }
  }
}
