/** Stock counts, receipts, adjustments and inspections keep the stock invariant, and a count never gets stuck. */
module StockCountInvariant {
  import opened Wrappers
  import opened Tables
  import opened Sums
  import opened Totals
  import opened StockInvariant
  import opened StockCountService
  import OrderInvariant
  import CatalogService
  import ReturnService

  // ---------- stock moved, no line touched ----------

  lemma StockChange(d: Db, d': Db, k: Sku, b': Balance, move: Option<Movement>)
    requires StockInv(d)
    requires d'.orders == d.orders && d'.cancelRequests == d.cancelRequests && d'.counts == d.counts
    requires d'.lines == d.lines && d'.events == d.events
    requires d'.movements == Appended(d.movements, move) && (move.Some? ==> move.value.sku == k)
    requires BalanceSet(d.balances, d'.balances, k, b')
    requires b'.reserved == BalanceOf(d.balances, k).reserved
    requires b'.onHand == BalanceOf(d.balances, k).onHand + DeltaOf(move)
    requires b'.reserved <= b'.onHand
    requires !UnderCount(d.counts, k)
    ensures StockInv(d')
  {
    forall x ensures BalanceOk(d'.balances, d'.lines, d'.movements, x) {
      assert BalanceOk(d.balances, d.lines, d.movements, x);
      if move.Some? {
        SumAppend(d.movements, move.value, DeltaAt(x));
      }
    }
  }

  lemma AdjustKeeps(d: Db, k: Sku, delta: int)
    requires StockInv(d)
    ensures var out := CatalogService.Adjust(d, k, delta); out.Done? ==> StockInv(out.db)
  {
    var out := CatalogService.Adjust(d, k, delta);
    if out.Done? {
      StockChange(d, out.db, k, out.db.balances[k], Some(Movement(k, Adjusted, delta)));
    }
  }

  lemma ReceiveRowKeeps(d: Db, warehouse: Id, row: ReceiptRow, repeated: bool)
    requires StockInv(d)
    ensures var next := CatalogService.ReceiveRow(d, warehouse, row, repeated); next.Row? ==> StockInv(next.db)
  {
    var next := CatalogService.ReceiveRow(d, warehouse, row, repeated);
    if next.Row? {
      var k := Sku(warehouse, row.product);
      assert BalanceOk(d.balances, d.lines, d.movements, k);
      StockChange(d, next.db, k, next.db.balances[k], Some(Movement(k, Received, row.quantity)));
    }
  }

  lemma {:induction false} ReceiveFromKeeps(d: Db, warehouse: Id, rows: seq<ReceiptRow>, n: nat)
    requires StockInv(d)
    ensures var out := CatalogService.ReceiveFrom(d, warehouse, rows, n); out.Done? ==> StockInv(out.db)
    decreases |rows| - n
  {
    if n < |rows| {
      var repeated := CatalogService.Repeated(rows, n);
      ReceiveRowKeeps(d, warehouse, rows[n], repeated);
      match CatalogService.ReceiveRow(d, warehouse, rows[n], repeated)
      case Stop(_) =>
      case Row(d', _) => ReceiveFromKeeps(d', warehouse, rows, n + 1);
    }
  }

  lemma InspectKeeps(d: Db, i: Id, received: int, normal: int, defective: int)
    requires StockInv(d)
    ensures var out := ReturnService.Inspect(d, i, received, normal, defective); out.Done? ==> StockInv(out.db)
  {
    var out := ReturnService.Inspect(d, i, received, normal, defective);
    if out.Done? && normal > 0 {
      var k := d.returnLines[i].sku;
      assert BalanceOk(d.balances, d.lines, d.movements, k);
      StockChange(d, out.db, k, out.db.balances[k], Some(Movement(k, Returned, normal)));
    }
  }

  // ---------- counts ----------

  lemma StartKeeps(d: Db, k: Sku)
    requires StockInv(d)
    ensures Start(d, k).Done? ==> StockInv(Start(d, k).db)
  {
    if Start(d, k).Done? {
      var counts := Start(d, k).db.counts;
      assert BalanceOk(d.balances, d.lines, d.movements, k);
      forall i | 0 <= i < |d.lines| && d.lines[i].sku == k ensures Picked(d.lines[i]) == 0 {
        assert LineOk(d.orders, d.lines[i]);
      }
      assert CountsOk(counts, d.balances, d.lines);
    }
  }

  lemma CancelKeeps(d: Db, c: Id)
    requires StockInv(d)
    ensures Cancel(d, c).Done? ==> StockInv(Cancel(d, c).db)
  {
  }

  ghost predicate Distinct(plan: seq<Id>) {
    forall m, n | 0 <= m < n < |plan| :: plan[m] != plan[n]
  }

  lemma {:induction false} PlaceDistinct(d: Db, k: Sku, plan: seq<Id>, i: Id)
    requires AllCandidates(d, k, plan) && Candidate(d, k, i)
    requires Distinct(plan) && i !in plan
    ensures Distinct(Place(d, k, plan, i))
    ensures forall j :: j in Place(d, k, plan, i) <==> j in plan || j == i
  {
    if plan == [] || LineNewer(d, i, plan[0]) {
    } else {
      PlaceDistinct(d, k, plan[1..], i);
      var placed := Place(d, k, plan[1..], i);
      forall j ensures j in [plan[0]] + placed <==> j in plan || j == i {
        assert j in plan <==> j == plan[0] || j in plan[1..];
      }
      assert plan[0] !in plan[1..];
    }
  }

  /** The plan lists each open reservation of the SKU once. */
  lemma {:induction false} PlanIsCandidates(d: Db, k: Sku, n: nat)
    requires n <= |d.lines|
    ensures Distinct(NewestFirst(d, k, n))
    ensures forall i: Id :: i in NewestFirst(d, k, n) <==> i < n && Candidate(d, k, i)
  {
    if n > 0 {
      PlanIsCandidates(d, k, n - 1);
      if Candidate(d, k, n - 1) {
        PlaceDistinct(d, k, NewestFirst(d, k, n - 1), n - 1);
      }
    }
  }

  /** How the database looks to the invariant while a count's reservations are being cut: the count already closed,
      the freed units already off the balance. */
  function Cutting(d: Db, c: Id, freed: int): Db
    requires c < |d.counts| && d.counts[c].sku in d.balances
  {
    var b := d.balances[d.counts[c].sku];
    d.(counts := d.counts[c := d.counts[c].(status := Counted)],
       balances := d.balances[d.counts[c].sku := Balance(b.onHand, b.reserved - freed)])
  }

  lemma CutRowKeeps(d: Db, c: Id, freed: int, i: Id, quantity: int)
    requires RunsAlone(d.counts, c) && d.counts[c].sku in d.balances && StockInv(Cutting(d, c, freed))
    requires Candidate(d, d.counts[c].sku, i) && Picked(d.lines[i]) == 0
    requires 0 < quantity <= Open(d.lines[i])
    ensures StockInv(Cutting(CutRow(d, i, quantity), c, freed + quantity))
  {
    var k := d.counts[c].sku;
    var before, after := Cutting(d, c, freed), Cutting(CutRow(d, i, quantity), c, freed + quantity);
    assert LineOk(d.orders, d.lines[i]);
    OrderInvariant.OpenIsReserved(before, i);
    assert BalanceOk(before.balances, before.lines, before.movements, k);
    LineChange(before, after, i, CutLine(d.lines[i], quantity), after.balances[k], Some(Event(i, Freed, quantity)),
               None);
  }

  ghost predicate Walkable(d: Db, k: Sku, plan: seq<Id>, n: nat) {
    n <= |plan| && Distinct(plan) && forall m | n <= m < |plan| :: Candidate(d, k, plan[m])
  }

  /** The count is the only one running of its SKU. */
  ghost predicate RunsAlone(counts: seq<Count>, c: Id) {
    && c < |counts| && counts[c].status == Counting
    && forall b | 0 <= b < |counts| && b != c :: counts[b].status == Counting ==> counts[b].sku != counts[c].sku
  }

  /** Nothing is picked of the lines the walk still has ahead of it. */
  ghost predicate CleanPlan(d: Db, k: Sku, plan: seq<Id>, n: nat) {
    Walkable(d, k, plan, n) && forall m | n <= m < |plan| :: Picked(d.lines[plan[m]]) == 0
  }

  lemma CutRowLeavesClean(d: Db, k: Sku, plan: seq<Id>, n: nat, quantity: int)
    requires CleanPlan(d, k, plan, n) && n < |plan|
    ensures CleanPlan(CutRow(d, plan[n], quantity), k, plan, n + 1)
  {
    var d' := CutRow(d, plan[n], quantity);
    forall m | n < m < |plan| ensures Candidate(d', k, plan[m]) && Picked(d'.lines[plan[m]]) == 0 {
      assert plan[m] != plan[n] && Candidate(d, k, plan[m]) && d'.lines[plan[m]] == d.lines[plan[m]];
    }
  }

  /** The walk's next step, with `x` units still short, keeps what holds before it. */
  predicate Advances(kept: (Db, nat, int) -> bool, d: Db, plan: seq<Id>, n: nat, x: int)
    requires n < |plan|
  {
    && plan[n] < |d.lines| && IsActive(d.lines[plan[n]])
    && (x == 0 ==> kept(d, n + 1, 0))
    && (x != 0 ==> kept(CutRow(d, plan[n], Min(x, Open(d.lines[plan[n]]))), n + 1, x - Min(x, Open(d.lines[plan[n]]))))
  }

  ghost predicate AlwaysAdvances(kept: (Db, nat, int) -> bool, plan: seq<Id>) {
    forall e: Db, m: nat, x: int {:trigger kept(e, m, x)} | kept(e, m, x) && m < |plan| :: Advances(kept, e, plan, m, x)
  }

  /** Whatever every step of the walk keeps, the walk keeps to its end. */
  lemma {:induction false} CutFromPreserves(kept: (Db, nat, int) -> bool, d: Db, plan: seq<Id>, n: nat, left: int)
    requires kept(d, n, left) && n <= |plan| && AlwaysAdvances(kept, plan)
    ensures var row := CutFrom(d, plan, n, left); kept(row.db, |plan|, row.moved)
    decreases |plan| - n
  {
    if n < |plan| {
      assert Advances(kept, d, plan, n, left);
      if left == 0 {
        CutFromPreserves(kept, d, plan, n + 1, 0);
        assert CutFrom(d, plan, n, 0) == CutFrom(d, plan, n + 1, 0);
      } else {
        var cut := Min(left, Open(d.lines[plan[n]]));
        CutFromPreserves(kept, CutRow(d, plan[n], cut), plan, n + 1, left - cut);
        assert CutFrom(d, plan, n, left) == CutFrom(CutRow(d, plan[n], cut), plan, n + 1, left - cut);
      }
    } else {
      assert kept(CutFrom(d, plan, n, left).db, |plan|, left);
    }
  }

  /** The walk has come to position `n`, and `left` units are still short. */
  ghost predicate CuttingTo(d: Db, c: Id, plan: seq<Id>, n: nat, shortage: int, left: int) {
    && RunsAlone(d.counts, c) && d.counts[c].sku in d.balances && left >= 0
    && CleanPlan(d, d.counts[c].sku, plan, n) && StockInv(Cutting(d, c, shortage - left))
  }

  lemma CuttingGoesOn(d: Db, c: Id, plan: seq<Id>, n: nat, shortage: int, left: int)
    requires CuttingTo(d, c, plan, n, shortage, left) && n < |plan|
    ensures plan[n] < |d.lines| && IsActive(d.lines[plan[n]])
    ensures left == 0 ==> CuttingTo(d, c, plan, n + 1, shortage, 0)
    ensures var cut := Min(left, Open(d.lines[plan[n]]));
            left != 0 ==> CuttingTo(CutRow(d, plan[n], cut), c, plan, n + 1, shortage, left - cut)
  {
    assert Candidate(d, d.counts[c].sku, plan[n]);
    if left != 0 {
      var cut := Min(left, Open(d.lines[plan[n]]));
      CutRowKeeps(d, c, shortage - left, plan[n], cut);
      CutRowLeavesClean(d, d.counts[c].sku, plan, n, cut);
    }
  }

  lemma CutFromKeeps(d: Db, c: Id, plan: seq<Id>, shortage: int)
    requires CuttingTo(d, c, plan, 0, shortage, shortage)
    ensures var row := CutFrom(d, plan, 0, shortage); CuttingTo(row.db, c, plan, |plan|, shortage, row.moved)
  {
    var kept := (e: Db, m: nat, x: int) => CuttingTo(e, c, plan, m, shortage, x);
    forall e: Db, m: nat, x: int | kept(e, m, x) && m < |plan| ensures Advances(kept, e, plan, m, x) {
      CuttingGoesOn(e, c, plan, m, shortage, x);
    }
    CutFromPreserves(kept, d, plan, 0, shortage);
  }

  function Held(lines: seq<Line>): Id -> int {
    (i: Id) => if i < |lines| then Open(lines[i]) else 0
  }

  lemma HeldRest(d: Db, plan: seq<Id>, n: nat)
    requires n < |plan|
    ensures Sum(plan[n..], Held(d.lines)) == Held(d.lines)(plan[n]) + Sum(plan[n + 1..], Held(d.lines))
  {
    assert plan[n..] == [plan[n]] + plan[n + 1..];
    SumConcat([plan[n]], plan[n + 1..], Held(d.lines));
    assert [plan[n]][..0] == [];
  }

  lemma CutRowLeaves(d: Db, k: Sku, plan: seq<Id>, n: nat, quantity: int)
    requires Walkable(d, k, plan, n) && n < |plan|
    ensures var d' := CutRow(d, plan[n], quantity);
            Walkable(d', k, plan, n + 1) && Sum(plan[n + 1..], Held(d'.lines)) == Sum(plan[n + 1..], Held(d.lines))
  {
    var d', rest := CutRow(d, plan[n], quantity), plan[n + 1..];
    forall m | n < m < |plan| ensures Candidate(d', k, plan[m]) && d'.lines[plan[m]] == d.lines[plan[m]] {
      assert plan[m] != plan[n] && Candidate(d, k, plan[m]);
    }
    SumEqual(rest, Held(d.lines), rest, Held(d'.lines));
  }

  /** What the walk cannot cover is what the rest of the plan does not hold. */
  lemma {:induction false} CutFromCovers(d: Db, k: Sku, plan: seq<Id>, n: nat, shortage: int)
    requires Walkable(d, k, plan, n) && shortage >= 0
    ensures CutFrom(d, plan, n, shortage).moved == Max(0, shortage - Sum(plan[n..], Held(d.lines)))
    decreases |plan| - n
  {
    SumNonNegative(plan[n..], Held(d.lines));
    if n < |plan| && shortage != 0 {
      assert Candidate(d, k, plan[n]);
      var quantity := Min(shortage, Open(d.lines[plan[n]]));
      HeldRest(d, plan, n);
      SumNonNegative(plan[n + 1..], Held(d.lines));
      CutRowLeaves(d, k, plan, n, quantity);
      CutFromCovers(CutRow(d, plan[n], quantity), k, plan, n + 1, shortage - quantity);
    }
  }

  lemma {:induction false} PlaceTotal(d: Db, k: Sku, plan: seq<Id>, i: Id, weight: Id -> int)
    requires AllCandidates(d, k, plan) && Candidate(d, k, i)
    ensures Sum(Place(d, k, plan, i), weight) == Sum(plan, weight) + weight(i)
  {
    if plan == [] || LineNewer(d, i, plan[0]) {
      SumConcat([i], plan, weight);
      assert [i][..0] == [];
    } else {
      PlaceTotal(d, k, plan[1..], i, weight);
      SumConcat([plan[0]], Place(d, k, plan[1..], i), weight);
      assert plan == [plan[0]] + plan[1..];
      SumConcat([plan[0]], plan[1..], weight);
    }
  }

  function AtLine(lines: seq<Line>, weight: Line -> int): Id -> int {
    (i: Id) => if i < |lines| then weight(lines[i]) else 0
  }

  /** Totals over the plan are totals over the line table, for anything only open reservations of the SKU have. */
  lemma {:induction false} PlanTotal(d: Db, k: Sku, n: nat, weight: Line -> int)
    requires n <= |d.lines|
    requires forall i: Id | i < n && !Candidate(d, k, i) :: weight(d.lines[i]) == 0
    ensures Sum(NewestFirst(d, k, n), AtLine(d.lines, weight)) == Sum(d.lines[..n], weight)
  {
    if n > 0 {
      PlanTotal(d, k, n - 1, weight);
      assert d.lines[..n] == d.lines[..n - 1] + [d.lines[n - 1]];
      SumAppend(d.lines[..n - 1], d.lines[n - 1], weight);
      if Candidate(d, k, n - 1) {
        PlaceTotal(d, k, NewestFirst(d, k, n - 1), n - 1, AtLine(d.lines, weight));
      }
    }
  }

  /** The open reservations of a SKU together hold exactly its reserved balance. */
  lemma PlanHoldsReserved(d: Db, k: Sku)
    requires StockInv(d)
    ensures Sum(NewestFirst(d, k, |d.lines|), Held(d.lines)) == BalanceOf(d.balances, k).reserved
  {
    forall i: Id | i < |d.lines| && !Candidate(d, k, i) ensures OpenAt(k)(d.lines[i]) == 0 {
      assert LineOk(d.orders, d.lines[i]);
    }
    PlanTotal(d, k, |d.lines|, OpenAt(k));
    assert d.lines[..|d.lines|] == d.lines;
    var plan := NewestFirst(d, k, |d.lines|);
    SumEqual(plan, Held(d.lines), plan, AtLine(d.lines, OpenAt(k)));
    assert BalanceOk(d.balances, d.lines, d.movements, k);
  }

  lemma CountIsClean(d: Db, c: Id)
    requires StockInv(d) && c < |d.counts| && d.counts[c].status == Counting
    ensures d.counts[c].sku in d.balances
    ensures !HasPickedLine(d, d.counts[c].sku)
    ensures forall i | 0 <= i < |d.lines| && d.lines[i].sku == d.counts[c].sku :: Picked(d.lines[i]) == 0
  {
    forall i | 0 <= i < |d.lines| && d.lines[i].sku == d.counts[c].sku
      ensures Picked(d.lines[i]) == 0 && InspectedOf(d.lines[i]) == 0
    {
      assert LineOk(d.orders, d.lines[i]);
    }
  }

  /** None of the three defensive failures of a running count can occur: it can be finalized with every result its
      column can hold. */
  lemma FinalizeNeverStuck(d: Db, c: Id, result: int)
    requires StockInv(d) && result >= 0
    ensures c < |d.counts| && d.counts[c].status == Counting ==>
              if result <= MAX_INTEGER then Finalize(d, c, result).Done?
              else Finalize(d, c, result) == Failed(ConstraintViolation)
  {
    if c < |d.counts| && d.counts[c].status == Counting {
      var k := d.counts[c].sku;
      CountIsClean(d, c);
      var plan := NewestFirst(d, k, |d.lines|);
      PlanIsCandidates(d, k, |d.lines|);
      PlanHoldsReserved(d, k);
      assert plan[0..] == plan;
      var shortage := Max(0, d.balances[k].reserved - result);
      assert BalanceOk(d.balances, d.lines, d.movements, k);
      CutFromCovers(d, k, plan, 0, shortage);
    }
  }

  lemma CloseKeeps(d: Db, c: Id, result: int, freed: int)
    requires RunsAlone(d.counts, c) && d.counts[c].sku in d.balances && StockInv(Cutting(d, c, freed))
    requires d.balances[d.counts[c].sku].reserved - freed <= result
    ensures StockInv(Close(d, c, result, freed))
  {
    var k := d.counts[c].sku;
    var cut, out := Cutting(d, c, freed), Close(d, c, result, freed);
    var delta := result - d.balances[k].onHand;
    StockChange(cut, out.(counts := cut.counts), k, out.balances[k],
                if delta == 0 then None else Some(Movement(k, Adjusted, delta)));
    assert forall b | 0 <= b < |d.counts| ::
        out.counts[b] == cut.counts[b].(result := out.counts[b].result, freed := out.counts[b].freed);
  }

  lemma CuttingStarts(d: Db, c: Id)
    requires StockInv(d) && c < |d.counts| && d.counts[c].status == Counting
    ensures d.counts[c].sku in d.balances && StockInv(Cutting(d, c, 0))
  {
    assert Cutting(d, c, 0).balances == d.balances;
  }

  /** A count that is finalized is the walk over its plan, with nothing left short, and the correction. */
  lemma FinalizeIs(d: Db, c: Id, result: int)
    requires Finalize(d, c, result).Done?
    ensures c < |d.counts| && d.counts[c].status == Counting && d.counts[c].sku in d.balances && result >= 0
    ensures var k := d.counts[c].sku;
            var shortage := Max(0, d.balances[k].reserved - result);
            var row := CutFrom(d, NewestFirst(d, k, |d.lines|), 0, shortage);
            row.moved == 0 && Finalize(d, c, result).db == Close(row.db, c, result, shortage)
  {
    var k := d.counts[c].sku;
    assert k in d.balances && result <= MAX_INTEGER;
    var row := CutFrom(d, NewestFirst(d, k, |d.lines|), 0, Max(0, d.balances[k].reserved - result));
    assert row.db.counts == d.counts && row.db.balances == d.balances;
  }

  lemma PlanIsClean(d: Db, c: Id)
    requires StockInv(d) && c < |d.counts| && d.counts[c].status == Counting
    ensures CleanPlan(d, d.counts[c].sku, NewestFirst(d, d.counts[c].sku, |d.lines|), 0)
    ensures RunsAlone(d.counts, c)
  {
    CountIsClean(d, c);
    PlanIsCandidates(d, d.counts[c].sku, |d.lines|);
  }

  lemma CutKeeps(d: Db, c: Id, shortage: int)
    requires StockInv(d) && c < |d.counts| && d.counts[c].status == Counting && shortage >= 0
    ensures d.counts[c].sku in d.balances
    ensures var row := CutFrom(d, NewestFirst(d, d.counts[c].sku, |d.lines|), 0, shortage);
            StockInv(Cutting(row.db, c, shortage - row.moved))
  {
    CuttingStarts(d, c);
    PlanIsClean(d, c);
    CutFromKeeps(d, c, NewestFirst(d, d.counts[c].sku, |d.lines|), shortage);
  }

  lemma ClosingKeeps(d: Db, e: Db, c: Id, result: int, shortage: int)
    requires e == d.(lines := e.lines, events := e.events) && RunsAlone(d.counts, c) && d.counts[c].sku in d.balances
    requires shortage == Max(0, d.balances[d.counts[c].sku].reserved - result)
    requires StockInv(Cutting(e, c, shortage))
    ensures StockInv(Close(e, c, result, shortage))
  {
    CloseKeeps(e, c, result, shortage);
  }

  lemma FinalizeKeeps(d: Db, c: Id, result: int)
    requires StockInv(d)
    ensures Finalize(d, c, result).Done? ==> StockInv(Finalize(d, c, result).db)
  {
    if Finalize(d, c, result).Done? {
      FinalizeIs(d, c, result);
      PlanIsClean(d, c);
      var k := d.counts[c].sku;
      var shortage := Max(0, d.balances[k].reserved - result);
      CutKeeps(d, c, shortage);
      ClosingKeeps(d, CutFrom(d, NewestFirst(d, k, |d.lines|), 0, shortage).db, c, result, shortage);
    }
  }
}
