/** Finalizing a count, stated without its loop: every reservation's loss is a closed formula of the state before. */
module StockCountGreedy {
  import opened Wrappers
  import opened Tables
  import opened Sums
  import opened Totals
  import opened StockInvariant
  import opened StockCountService
  import opened StockCountInvariant

  // ---------- the reference: loss as a formula ----------

  function HeldNewer(orders: seq<Order>, k: Sku, than: Order): Line -> int {
    (l: Line) => if l.sku == k && l.order < |orders| && Newer(orders[l.order], than) then Open(l) else 0
  }

  /** Units of the SKU held by orders newer than the one line `i` belongs to. */
  function NewerUnits(d: Db, k: Sku, i: Id): int
    requires Candidate(d, k, i)
  {
    Sum(d.lines, HeldNewer(d.orders, k, d.orders[d.lines[i].order]))
  }

  /** What line `i` loses when `shortage` units must be given up: whatever newer orders cannot cover. */
  function Loss(d: Db, k: Sku, i: Id, shortage: int): int
    requires Candidate(d, k, i)
  {
    Min(Open(d.lines[i]), Max(0, shortage - NewerUnits(d, k, i)))
  }

  /** What the walk relies on: orders can be told apart, and each has at most one line of a SKU. */
  ghost predicate Ordered(d: Db) {
    OrdersOk(d.orders) && LinesOk(d.orders, d.lines)
  }

  // ---------- the plan is sorted ----------

  ghost predicate Sorted(d: Db, k: Sku, plan: seq<Id>)
    requires AllCandidates(d, k, plan)
  {
    forall m, n | 0 <= m < n < |plan| :: LineNewer(d, plan[m], plan[n])
  }

  /** Two open reservations of one SKU belong to different orders, so one is newer than the other. */
  lemma CandidatesCompare(d: Db, k: Sku, i: Id, j: Id)
    requires Ordered(d) && Candidate(d, k, i) && Candidate(d, k, j) && i != j
    ensures LineNewer(d, i, j) <==> !LineNewer(d, j, i)
  {
    var a, b := d.lines[i].order, d.lines[j].order;
    assert a != b;
    assert d.orders[a].uuid != d.orders[b].uuid;
  }

  lemma {:induction false} PlaceSorted(d: Db, k: Sku, plan: seq<Id>, i: Id)
    requires Ordered(d) && AllCandidates(d, k, plan) && Candidate(d, k, i)
    requires Sorted(d, k, plan) && i !in plan && Distinct(plan)
    ensures Sorted(d, k, Place(d, k, plan, i))
  {
    if plan == [] || LineNewer(d, i, plan[0]) {
    } else {
      CandidatesCompare(d, k, i, plan[0]);
      PlaceSorted(d, k, plan[1..], i);
      PlaceDistinct(d, k, plan[1..], i);
      var placed := Place(d, k, plan[1..], i);
      forall n | 0 <= n < |placed| ensures LineNewer(d, plan[0], placed[n]) {
        assert placed[n] in placed;
        assert placed[n] == i || placed[n] in plan[1..];
      }
    }
  }

  lemma {:induction false} PlanSorted(d: Db, k: Sku, n: nat)
    requires Ordered(d) && n <= |d.lines|
    ensures Sorted(d, k, NewestFirst(d, k, n))
  {
    if n > 0 {
      PlanSorted(d, k, n - 1);
      PlanIsCandidates(d, k, n - 1);
      if Candidate(d, k, n - 1) {
        PlaceSorted(d, k, NewestFirst(d, k, n - 1), n - 1);
      }
    }
  }

  /** Only open reservations of the SKU hold anything of it. */
  lemma NewerPlanTotal(d: Db, k: Sku, than: Order)
    requires Ordered(d)
    ensures var newer := HeldNewer(d.orders, k, than);
            Sum(NewestFirst(d, k, |d.lines|), AtLine(d.lines, newer)) == Sum(d.lines, newer)
  {
    var newer := HeldNewer(d.orders, k, than);
    forall i: Id | i < |d.lines| && !Candidate(d, k, i) ensures newer(d.lines[i]) == 0 {
      assert LineOk(d.orders, d.lines[i]);
    }
    PlanTotal(d, k, |d.lines|, newer);
    assert d.lines[..|d.lines|] == d.lines;
  }

  /** Every line before position `m` of the sorted plan belongs to a newer order. */
  lemma PrefixTotal(d: Db, k: Sku, plan: seq<Id>, m: nat)
    requires Ordered(d) && AllCandidates(d, k, plan) && Sorted(d, k, plan) && m < |plan|
    ensures Sum(plan[..m], Held(d.lines)) ==
              Sum(plan[..m], AtLine(d.lines, HeldNewer(d.orders, k, d.orders[d.lines[plan[m]].order])))
  {
    var weight := AtLine(d.lines, HeldNewer(d.orders, k, d.orders[d.lines[plan[m]].order]));
    forall n | 0 <= n < m ensures Held(d.lines)(plan[..m][n]) == weight(plan[..m][n]) {
      assert Candidate(d, k, plan[n]) && LineNewer(d, plan[n], plan[m]);
    }
    SumEqual(plan[..m], Held(d.lines), plan[..m], weight);
  }

  lemma SumParts(plan: seq<Id>, m: nat, weight: Id -> int)
    requires m <= |plan| && forall n | 0 <= n < |plan[m..]| :: weight(plan[m..][n]) == 0
    ensures Sum(plan, weight) == Sum(plan[..m], weight)
  {
    assert plan == plan[..m] + plan[m..];
    SumConcat(plan[..m], plan[m..], weight);
    SumZero(plan[m..], weight);
  }

  /** In the sorted plan, what stands before a line is what newer orders hold. */
  lemma PrefixIsNewer(d: Db, k: Sku, m: nat)
    requires Ordered(d) && m < |NewestFirst(d, k, |d.lines|)|
    ensures var plan := NewestFirst(d, k, |d.lines|);
            Sum(plan[..m], Held(d.lines)) == NewerUnits(d, k, plan[m])
  {
    var plan := NewestFirst(d, k, |d.lines|);
    PlanSorted(d, k, |d.lines|);
    PlanIsCandidates(d, k, |d.lines|);
    var than := d.orders[d.lines[plan[m]].order];
    NewerPlanTotal(d, k, than);
    PrefixTotal(d, k, plan, m);
    SuffixIsOlder(d, k, plan, m);
    SumParts(plan, m, AtLine(d.lines, HeldNewer(d.orders, k, than)));
  }

  lemma SuffixIsOlder(d: Db, k: Sku, plan: seq<Id>, m: nat)
    requires Ordered(d) && AllCandidates(d, k, plan) && Sorted(d, k, plan) && Distinct(plan) && m < |plan|
    ensures var weight := AtLine(d.lines, HeldNewer(d.orders, k, d.orders[d.lines[plan[m]].order]));
            forall n | 0 <= n < |plan[m..]| :: weight(plan[m..][n]) == 0
  {
    forall n | m <= n < |plan| ensures !LineNewer(d, plan[n], plan[m]) {
      if n > m {
        CandidatesCompare(d, k, plan[m], plan[n]);
      }
    }
  }

  // ---------- the walk computes the formula ----------

  function CutOf(lines: seq<Line>, plan: seq<Id>, shortage: int, m: nat): int
    requires m < |plan|
  {
    Min(Held(lines)(plan[m]), Max(0, shortage - Sum(plan[..m], Held(lines))))
  }

  ghost predicate OpenPlan(lines: seq<Line>, plan: seq<Id>) {
    && Distinct(plan)
    && (forall m | 0 <= m < |plan| :: plan[m] < |lines| && Open(lines[plan[m]]) > 0)
  }

  /** The line table with the first `n` lines of the plan cut by the formula. */
  function CutLines(lines: seq<Line>, plan: seq<Id>, shortage: int, n: nat): (cut: seq<Line>)
    requires n <= |plan| && forall m | 0 <= m < |plan| :: plan[m] < |lines| && Open(lines[plan[m]]) > 0
    ensures |cut| == |lines|
  {
    if n == 0 then lines
    else
      var before, cut := CutLines(lines, plan, shortage, n - 1), CutOf(lines, plan, shortage, n - 1);
      before[plan[n - 1] := CutLine(lines[plan[n - 1]], cut)]
  }

  /** One more line cut changes that line only. */
  lemma CutLinesStep(lines: seq<Line>, plan: seq<Id>, shortage: int, n: nat, i: Id)
    requires OpenPlan(lines, plan) && n < |plan| && i < |lines|
    ensures plan[n] != i ==> CutLines(lines, plan, shortage, n + 1)[i] == CutLines(lines, plan, shortage, n)[i]
    ensures plan[n] == i ==>
              CutLines(lines, plan, shortage, n + 1)[i] == CutLine(lines[i], CutOf(lines, plan, shortage, n))
  {
  }

  /** What the first `n` cuts make of a line. */
  ghost predicate CutSoFar(lines: seq<Line>, plan: seq<Id>, shortage: int, n: nat, i: Id)
    requires OpenPlan(lines, plan) && n <= |plan| && i < |lines|
  {
    && (i !in plan[..n] ==> CutLines(lines, plan, shortage, n)[i] == lines[i])
    && forall m | 0 <= m < n && plan[m] == i ::
         CutLines(lines, plan, shortage, n)[i] == CutLine(lines[i], CutOf(lines, plan, shortage, m))
  }

  lemma {:induction false} CutLinesAt(lines: seq<Line>, plan: seq<Id>, shortage: int, n: nat, i: Id)
    requires OpenPlan(lines, plan) && n <= |plan| && i < |lines|
    ensures CutSoFar(lines, plan, shortage, n, i)
  {
    if n > 0 {
      CutLinesAt(lines, plan, shortage, n - 1, i);
      CutLinesStep(lines, plan, shortage, n - 1, i);
      assert plan[..n] == plan[..n - 1] + [plan[n - 1]];
    }
  }

  lemma CutNothing(l: Line)
    requires Open(l) > 0
    ensures CutLine(l, 0) == l
  {
  }

  /** The walk has come to position `n`: the lines before it are cut by the formula, and `left` units are still
      short. */
  ghost predicate CutTo(lines: seq<Line>, now: seq<Line>, plan: seq<Id>, n: nat, shortage: int, left: int) {
    && OpenPlan(lines, plan) && n <= |plan|
    && now == CutLines(lines, plan, shortage, n)
    && left == Max(0, shortage - Sum(plan[..n], Held(lines)))
  }

  lemma CutToNext(lines: seq<Line>, d: Db, plan: seq<Id>, n: nat, shortage: int, left: int)
    requires CutTo(lines, d.lines, plan, n, shortage, left) && n < |plan|
    ensures plan[n] < |d.lines| && d.lines[plan[n]] == lines[plan[n]]
    ensures left == 0 ==> CutTo(lines, d.lines, plan, n + 1, shortage, 0)
    ensures var cut := Min(left, Open(lines[plan[n]]));
            left != 0 ==> CutTo(lines, CutRow(d, plan[n], cut).lines, plan, n + 1, shortage, left - cut)
  {
    var i := plan[n];
    assert i !in plan[..n];
    CutLinesAt(lines, plan, shortage, n, i);
    assert plan[..n + 1] == plan[..n] + [i];
    SumAppend(plan[..n], i, Held(lines));
    if left == 0 {
      CutNothing(lines[i]);
      assert d.lines[i := lines[i]] == d.lines;
    }
  }

  lemma CutFromExact(lines: seq<Line>, d: Db, plan: seq<Id>, shortage: int)
    requires OpenPlan(lines, plan) && d.lines == lines && shortage >= 0
    requires forall m | 0 <= m < |plan| :: IsActive(lines[plan[m]])
    ensures CutFrom(d, plan, 0, shortage).db.lines == CutLines(lines, plan, shortage, |plan|)
  {
    var kept := (e: Db, m: nat, x: int) => CutTo(lines, e.lines, plan, m, shortage, x);
    assert plan[..0] == [];
    assert kept(d, 0, shortage);
    forall e: Db, m: nat, x: int | kept(e, m, x) && m < |plan| ensures Advances(kept, e, plan, m, x) {
      CutToNext(lines, e, plan, m, shortage, x);
    }
    CutFromPreserves(kept, d, plan, 0, shortage);
  }

  lemma CutIsLoss(d: Db, k: Sku, shortage: int, i: Id)
    requires Ordered(d) && i < |d.lines|
    ensures var plan := NewestFirst(d, k, |d.lines|);
            && OpenPlan(d.lines, plan)
            && CutLines(d.lines, plan, shortage, |plan|)[i] ==
                 if Candidate(d, k, i) then CutLine(d.lines[i], Loss(d, k, i, shortage)) else d.lines[i]
  {
    var plan := NewestFirst(d, k, |d.lines|);
    PlanIsCandidates(d, k, |d.lines|);
    PlanIsOpen(d, k, plan);
    CutLinesAt(d.lines, plan, shortage, |plan|, i);
    assert plan[..|plan|] == plan;
    if Candidate(d, k, i) {
      var m :| 0 <= m < |plan| && plan[m] == i;
      CutIsFormula(d, k, shortage, m);
    }
  }

  lemma PlanIsOpen(d: Db, k: Sku, plan: seq<Id>)
    requires AllCandidates(d, k, plan) && Distinct(plan)
    ensures OpenPlan(d.lines, plan)
  {
    forall m | 0 <= m < |plan| ensures plan[m] < |d.lines| && Open(d.lines[plan[m]]) > 0 {
      assert Candidate(d, k, plan[m]);
    }
  }

  lemma CutIsFormula(d: Db, k: Sku, shortage: int, m: nat)
    requires Ordered(d) && m < |NewestFirst(d, k, |d.lines|)|
    ensures var plan := NewestFirst(d, k, |d.lines|);
            Candidate(d, k, plan[m]) && CutOf(d.lines, plan, shortage, m) == Loss(d, k, plan[m], shortage)
  {
    PrefixIsNewer(d, k, m);
  }

  /** The lines after the walk over the whole plan. */
  lemma WalkExact(d: Db, k: Sku, shortage: int)
    requires Ordered(d) && shortage >= 0
    ensures var lines' := CutFrom(d, NewestFirst(d, k, |d.lines|), 0, shortage).db.lines;
            && |lines'| == |d.lines|
            && (forall i: Id | i < |d.lines| && Candidate(d, k, i) ::
                lines'[i] == CutLine(d.lines[i], Loss(d, k, i, shortage)))
            && (forall i: Id | i < |d.lines| && !Candidate(d, k, i) :: lines'[i] == d.lines[i])
  {
    var plan := NewestFirst(d, k, |d.lines|);
    PlanIsCandidates(d, k, |d.lines|);
    forall m | 0 <= m < |plan| ensures Candidate(d, k, plan[m]) {
    }
    CutFromExact(d.lines, d, plan, shortage);
    forall i: Id | i < |d.lines|
      ensures CutLines(d.lines, plan, shortage, |plan|)[i] ==
                if Candidate(d, k, i) then CutLine(d.lines[i], Loss(d, k, i, shortage)) else d.lines[i]
    {
      CutIsLoss(d, k, shortage, i);
    }
  }

  /** Finalizing a count: stock becomes what was counted, reserved stock drops to what was counted if it was more,
      and each open reservation of the SKU loses exactly its formula; nothing else about any line changes. */
  lemma FinalizeExact(d: Db, c: Id, result: int)
    requires Ordered(d) && Finalize(d, c, result).Done?
    ensures var d', k := Finalize(d, c, result).db, d.counts[c].sku;
            var shortage := Max(0, d.balances[k].reserved - result);
            && d'.balances == d.balances[k := Balance(result, Min(d.balances[k].reserved, result))]
            && |d'.lines| == |d.lines|
            && (forall i: Id | i < |d.lines| && Candidate(d, k, i) ::
                d'.lines[i] == CutLine(d.lines[i], Loss(d, k, i, shortage)))
            && (forall i: Id | i < |d.lines| && !Candidate(d, k, i) :: d'.lines[i] == d.lines[i])
  {
    StockCountInvariant.FinalizeIs(d, c, result);
    var k := d.counts[c].sku;
    WalkExact(d, k, Max(0, d.balances[k].reserved - result));
  }

  // ---------- what the formula means ----------

  /** Whatever a newer order holds, and the line itself if it is newer, counts as newer for an older line. */
  lemma NewerUnitsGrow(d: Db, k: Sku, newer: Id, older: Id)
    requires Ordered(d) && Candidate(d, k, newer) && Candidate(d, k, older) && LineNewer(d, newer, older)
    ensures NewerUnits(d, k, newer) + Open(d.lines[newer]) <= NewerUnits(d, k, older)
  {
    var a, b := d.orders[d.lines[newer].order], d.orders[d.lines[older].order];
    var only := (l: Line) => if l.sku == k && l.order == d.lines[newer].order then Open(l) else 0;
    var both := (l: Line) => HeldNewer(d.orders, k, a)(l) + only(l);
    SumSplit(d.lines, both, HeldNewer(d.orders, k, a), only);
    forall i | 0 <= i < |d.lines|
      ensures both(d.lines[i]) <= HeldNewer(d.orders, k, b)(d.lines[i]) && only(d.lines[i]) >= 0
    {
      assert LineOk(d.orders, d.lines[i]);
    }
    SumLeq(d.lines, both, d.lines, HeldNewer(d.orders, k, b));
    SumBounds(d.lines, only, newer);
  }

  /** Strictly newest first: an older reservation loses anything only when every newer one lost all it held. */
  lemma OlderLosesLast(d: Db, k: Sku, shortage: int, newer: Id, older: Id)
    requires Ordered(d) && Candidate(d, k, newer) && Candidate(d, k, older) && LineNewer(d, newer, older)
    requires Loss(d, k, older, shortage) > 0
    ensures Loss(d, k, newer, shortage) == Open(d.lines[newer])
  {
    NewerUnitsGrow(d, k, newer, older);
  }

  predicate PartlyCut(d: Db, k: Sku, i: Id, shortage: int) {
    Candidate(d, k, i) && 0 < Loss(d, k, i, shortage) < Open(d.lines[i])
  }

  /** At most one reservation is cut without being released. */
  lemma OnePartialCut(d: Db, k: Sku, shortage: int, i: Id, j: Id)
    requires Ordered(d) && PartlyCut(d, k, i, shortage) && PartlyCut(d, k, j, shortage)
    ensures i == j
  {
    if i != j {
      CandidatesCompare(d, k, i, j);
      if LineNewer(d, i, j) {
        OlderLosesLast(d, k, shortage, i, j);
      } else {
        OlderLosesLast(d, k, shortage, j, i);
      }
    }
  }

  function HeldDrop(lines: seq<Line>, lines': seq<Line>, k: Sku): int {
    Sum(lines, OpenAt(k)) - Sum(lines', OpenAt(k))
  }

  /** The losses add up to the shortage: no unit too many is taken from the customers. */
  lemma LossesMakeUpShortage(d: Db, c: Id, result: int)
    requires StockInv(d) && Finalize(d, c, result).Done?
    ensures var d', k := Finalize(d, c, result).db, d.counts[c].sku;
            HeldDrop(d.lines, d'.lines, k) == Max(0, d.balances[k].reserved - result)
  {
    var d', k := Finalize(d, c, result).db, d.counts[c].sku;
    FinalizeKeeps(d, c, result);
    FinalizeExact(d, c, result);
    assert BalanceOk(d.balances, d.lines, d.movements, k);
    assert BalanceOk(d'.balances, d'.lines, d'.movements, k);
  }
}
