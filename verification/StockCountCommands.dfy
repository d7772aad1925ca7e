/** Stock counts as the service runs them. */
module StockCountCommands {
  import opened Wrappers
  import opened Tables
  import opened Store
  import opened StockCountService

  method Start(db: Database, k: Sku) returns (answer: Result<Reply, Error>)
    modifies db
    ensures Performs(StockCountService.Start(old(db.tables), k), db.tables, answer)
  {
    if k !in db.tables.balances { return Failure(NotFound); }
    if UnderCount(db.tables.counts, k) { return Failure(AlreadyCounting); }
    if HasPickedLine(db.tables, k) { return Failure(PickedBeforeCount); }
    var c, snapshot := |db.tables.counts|, db.tables.balances[k];
    db.InsertCount(Count(k, Counting, snapshot, 0, 0));
    return Success(CountStarted(c, snapshot));
  }

  /** Every line of the plan has a reservation. */
  predicate Reserved(lines: seq<Line>, plan: seq<Id>) {
    forall m | 0 <= m < |plan| :: plan[m] < |lines| && lines[plan[m]].reservation.Some?
  }

  /** Take units from one reservation and log it. */
  method TakeBack(db: Database, i: Id, quantity: int, full: bool)
    requires i < |db.tables.lines| && db.tables.lines[i].reservation.Some?
    requires var r := db.tables.lines[i].reservation.value; full == (quantity == r.quantity - r.shipped)
    modifies db
    ensures db.tables == CutRow(old(db.tables), i, quantity)
    ensures forall plan :: Reserved(old(db.tables).lines, plan) ==> Reserved(db.tables.lines, plan)
  {
    var l := db.tables.lines[i];
    var r := l.reservation.value;
    var r' := r.(quantity := if full then r.quantity else r.quantity - quantity,
                 status := if full then Released else r.status);
    db.UpdateLine(i, l.(reservation := Some(r')));
    db.UpdateLine(i, db.tables.lines[i].(reserved := l.reserved - quantity));
    db.InsertEvent(Event(i, Freed, quantity));
  }

  /** Give up reservations newest first until the shortage is covered. */
  method GiveUp(db: Database, plan: seq<Id>, needed: int) returns (shortage: int, released: int)
    requires Reserved(db.tables.lines, plan)
    modifies db
    ensures Row(db.tables, shortage) == CutFrom(old(db.tables), plan, 0, needed)
    ensures released == needed - shortage
  {
    shortage, released := needed, 0;
    for n := 0 to |plan|
      invariant Reserved(db.tables.lines, plan)
      invariant CutFrom(db.tables, plan, n, shortage) == CutFrom(old(db.tables), plan, 0, needed)
      invariant released == needed - shortage
    {
      if shortage == 0 { break; }
      var r := db.tables.lines[plan[n]].reservation.value;
      var remaining := r.quantity - r.shipped;
      var quantity := Min(shortage, remaining);
      TakeBack(db, plan[n], quantity, quantity == remaining);
      shortage, released := shortage - quantity, released + quantity;
    }
  }

  /** Correct the stock to what was counted and close the count. */
  method Close(db: Database, c: Id, result: int, released: int) returns (delta: int)
    requires c < |db.tables.counts| && db.tables.counts[c].sku in db.tables.balances
    modifies db
    ensures db.tables == StockCountService.Close(old(db.tables), c, result, released)
    ensures delta == result - old(db.tables).balances[old(db.tables).counts[c].sku].onHand
  {
    var k := db.tables.counts[c].sku;
    delta := result - db.tables.balances[k].onHand;
    if delta != 0 {
      db.InsertMovement(Movement(k, Adjusted, delta));
    }
    db.UpdateBalance(k, Balance(result, db.tables.balances[k].reserved - released));
    db.UpdateCount(c, db.tables.counts[c].(status := Counted, result := result, freed := released));
  }

  method Finalize(db: Database, c: Id, result: int) returns (answer: Result<Reply, Error>)
    modifies db
    ensures Performs(StockCountService.Finalize(old(db.tables), c, result), db.tables, answer)
  {
    if result < 0 { return Failure(BadRequest); }
    if c >= |db.tables.counts| { return Failure(NotFound); }
    if db.tables.counts[c].status != Counting { return Failure(CountClosed); }
    var k := db.tables.counts[c].sku;
    var plan := NewestFirst(db.tables, k, |db.tables.lines|);
    if HasPickedLine(db.tables, k) { return Failure(PickedDuringCount); }
    if k !in db.tables.balances { return Failure(BalanceUnavailable); }
    forall m | 0 <= m < |plan| ensures plan[m] < |db.tables.lines| && db.tables.lines[plan[m]].reservation.Some? {
      assert Candidate(db.tables, k, plan[m]);
    }
    var shortage := Max(0, db.tables.balances[k].reserved - result);
    var released := 0;
    if shortage != 0 {
      shortage, released := GiveUp(db, plan, shortage);
      if shortage != 0 { return Failure(CannotReconcile); }
    }
    if result > MAX_INTEGER { return Failure(ConstraintViolation); }
    var delta := Close(db, c, result, released);
    return Success(CountFinalized(c, result, released, delta));
  }

  method Cancel(db: Database, c: Id) returns (answer: Result<Reply, Error>)
    modifies db
    ensures Performs(StockCountService.Cancel(old(db.tables), c), db.tables, answer)
  {
    if c >= |db.tables.counts| || db.tables.counts[c].status != Counting { return Failure(CountClosed); }
    db.UpdateCount(c, db.tables.counts[c].(status := Abandoned));
    return Success(CountCancelled(c));
  }
}
