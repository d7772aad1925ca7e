/** Stock counts: start, finalize with greedy newest-first release, cancel. */
module StockCountService {
  import opened Wrappers
  import opened Tables

  // ---------- the order in which reservations are given up ----------

  /** Later created first; equal creation times are settled by the order's identifier. */
  predicate Newer(a: Order, b: Order) {
    a.createdAt > b.createdAt || (a.createdAt == b.createdAt && a.uuid > b.uuid)
  }

  predicate Candidate(d: Db, k: Sku, i: Id) {
    && i < |d.lines| && d.lines[i].sku == k && d.lines[i].order < |d.orders|
    && IsActive(d.lines[i]) && Open(d.lines[i]) > 0
  }

  predicate LineNewer(d: Db, i: Id, j: Id)
    requires i < |d.lines| && d.lines[i].order < |d.orders|
    requires j < |d.lines| && d.lines[j].order < |d.orders|
  {
    Newer(d.orders[d.lines[i].order], d.orders[d.lines[j].order])
  }

  predicate AllCandidates(d: Db, k: Sku, plan: seq<Id>) {
    forall n | 0 <= n < |plan| :: Candidate(d, k, plan[n])
  }

  /** Place a line behind every line of the plan that belongs to a newer order. */
  function Place(d: Db, k: Sku, plan: seq<Id>, i: Id): (placed: seq<Id>)
    requires AllCandidates(d, k, plan) && Candidate(d, k, i)
    ensures AllCandidates(d, k, placed)
  {
    if plan == [] || LineNewer(d, i, plan[0]) then [i] + plan
    else [plan[0]] + Place(d, k, plan[1..], i)
  }

  /** The SKU's open reservations among the first `n` lines, newest order first. */
  function NewestFirst(d: Db, k: Sku, n: nat): (plan: seq<Id>)
    requires n <= |d.lines|
    ensures AllCandidates(d, k, plan)
  {
    if n == 0 then []
    else if Candidate(d, k, n - 1) then Place(d, k, NewestFirst(d, k, n - 1), n - 1)
    else NewestFirst(d, k, n - 1)
  }

  // ---------- commands ----------

  predicate HasPickedLine(d: Db, k: Sku) {
    exists i | 0 <= i < |d.lines| ::
      d.lines[i].sku == k && IsActive(d.lines[i]) && (Picked(d.lines[i]) > 0 || InspectedOf(d.lines[i]) > 0)
  }

  function Start(d: Db, k: Sku): Outcome {
    if k !in d.balances then Failed(NotFound)
    else if UnderCount(d.counts, k) then Failed(AlreadyCounting)
    else if HasPickedLine(d, k) then Failed(PickedBeforeCount)
    else Done(d.(counts := d.counts + [Count(k, Counting, d.balances[k], 0, 0)]),
              CountStarted(|d.counts|, d.balances[k]))
  }

  /** A reservation loses `quantity` units; one that loses all it has left keeps its old quantity and is released. */
  function CutLine(l: Line, quantity: int): Line
    requires l.reservation.Some?
  {
    var r := l.reservation.value;
    l.(reserved := l.reserved - quantity,
       reservation := Some(if quantity == r.quantity - r.shipped then r.(status := Released)
                           else r.(quantity := r.quantity - quantity)))
  }

  function CutRow(d: Db, i: Id, quantity: int): Db
    requires i < |d.lines| && d.lines[i].reservation.Some?
  {
    d.(lines := d.lines[i := CutLine(d.lines[i], quantity)], events := d.events + [Event(i, Freed, quantity)])
  }

  /** Walk the plan from position `n`, cutting each reservation by what is still short, until nothing is.
      The row reports the shortage that could not be covered. */
  function CutFrom(d: Db, plan: seq<Id>, n: nat, shortage: int): (row: Row)
    ensures row.Row? && row.db == d.(lines := row.db.lines, events := row.db.events) && |row.db.lines| == |d.lines|
    decreases |plan| - n
  {
    if n >= |plan| || shortage == 0 then Row(d, shortage)
    else if plan[n] >= |d.lines| || d.lines[plan[n]].reservation.None? then CutFrom(d, plan, n + 1, shortage)
    else
      var r := d.lines[plan[n]].reservation.value;
      var quantity := Min(shortage, r.quantity - r.shipped);
      CutFrom(CutRow(d, plan[n], quantity), plan, n + 1, shortage - quantity)
  }

  /** Correct the stock to what was counted and close the count. */
  function Close(d: Db, c: Id, result: int, freed: int): Db
    requires c < |d.counts| && d.counts[c].sku in d.balances
  {
    var k := d.counts[c].sku;
    var b := d.balances[k];
    var delta := result - b.onHand;
    d.(movements := if delta == 0 then d.movements else d.movements + [Movement(k, Adjusted, delta)],
       balances := d.balances[k := Balance(result, b.reserved - freed)],
       counts := d.counts[c := d.counts[c].(status := Counted, result := result, freed := freed)])
  }

  function Finalize(d: Db, c: Id, result: int): Outcome {
    if result < 0 then Failed(BadRequest)
    else if c >= |d.counts| then Failed(NotFound)
    else if d.counts[c].status != Counting then Failed(CountClosed)
    else
      var k := d.counts[c].sku;
      if HasPickedLine(d, k) then Failed(PickedDuringCount)
      else if k !in d.balances then Failed(BalanceUnavailable)
      else
        var shortage := Max(0, d.balances[k].reserved - result);
        var row := CutFrom(d, NewestFirst(d, k, |d.lines|), 0, shortage);
        if row.moved != 0 then Failed(CannotReconcile)
        else if result > MAX_INTEGER then Failed(ConstraintViolation)
        else
          Done(Close(row.db, c, result, shortage),
               CountFinalized(c, result, shortage, result - d.balances[k].onHand))
  }

  function Cancel(d: Db, c: Id): Outcome {
    if c >= |d.counts| || d.counts[c].status != Counting then Failed(CountClosed)
    else Done(d.(counts := d.counts[c := d.counts[c].(status := Abandoned)]), CountCancelled(c))
  }
}
