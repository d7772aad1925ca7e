/** What starting, finalizing and cancelling a count answer and write, row by row of the tables. */
module CountEffects {
  import opened Wrappers
  import opened Tables
  import opened StockInvariant
  import opened StockCountService
  import opened StockCountGreedy
  import StockCountInvariant

  /** Some active line of the SKU has units picked. */
  ghost predicate WorkedOn(d: Db, k: Sku) {
    exists i: Id :: i < |d.lines| && d.lines[i].sku == k && IsActive(d.lines[i]) && Picked(d.lines[i]) > 0
  }

  /** A count of a SKU is started exactly when the SKU has a balance, no other count of it is running, and none of it is
      picked; it remembers the balance it found. */
  lemma StartExact(d: Db, k: Sku)
    requires StockInv(d)
    ensures var out := Start(d, k);
            && (out.Done? <==>
                  && k in d.balances && !WorkedOn(d, k)
                  && forall c: Id | c < |d.counts| && d.counts[c].status == Counting :: d.counts[c].sku != k)
            && (out.Done? ==>
                  && out.db == d.(counts := d.counts + [Count(k, Counting, d.balances[k], 0, 0)])
                  && out.reply == CountStarted(|d.counts|, d.balances[k]))
  {
    if HasPickedLine(d, k) {
      var i: Id :| i < |d.lines| && d.lines[i].sku == k && IsActive(d.lines[i])
                   && (Picked(d.lines[i]) > 0 || InspectedOf(d.lines[i]) > 0);
      assert LineOk(d.orders, d.lines[i]);
    }
  }

  /** A running count, and no other, is abandoned; nothing else changes. */
  lemma CancelExact(d: Db, c: Id)
    ensures var out := Cancel(d, c);
            && (out.Done? <==> c < |d.counts| && d.counts[c].status == Counting)
            && (out.Done? ==>
                  && out.db == d.(counts := d.counts[c := d.counts[c].(status := Abandoned)])
                  && out.reply == CountCancelled(c))
  {
  }

  /** The line keeps what it shipped and holds as much as before or less; holding nothing, it is not active. */
  predicate HoldingCut(l: Line, l': Line) {
    && SameLine(l, l')
    && 0 <= Open(l') <= Open(l) && Shipped(l') == Shipped(l) && l'.reserved == Shipped(l) + Open(l')
    && (IsActive(l') <==> Open(l') > 0)
  }

  /** Only lines that hold something of the SKU are rewritten. */
  ghost predicate HoldingsCut(lines: seq<Line>, lines': seq<Line>, k: Sku) {
    && |lines'| == |lines|
    && (forall i: Id | i < |lines| && (lines[i].sku != k || Open(lines[i]) == 0) :: lines'[i] == lines[i])
    && (forall i: Id | i < |lines| && lines[i].sku == k && Open(lines[i]) > 0 :: HoldingCut(lines[i], lines'[i]))
  }

  lemma LineIsCut(orders: seq<Order>, l: Line, l': Line, quantity: int)
    requires LineOk(orders, l) && 0 <= quantity <= Open(l) && Open(l) > 0 && l' == CutLine(l, quantity)
    ensures HoldingCut(l, l')
  {
  }

  lemma CutIsCut(d: Db, c: Id, result: int)
    requires StockInv(d) && Finalize(d, c, result).Done?
    ensures HoldingsCut(d.lines, Finalize(d, c, result).db.lines, d.counts[c].sku)
  {
    FinalizeExact(d, c, result);
    var k, lines' := d.counts[c].sku, Finalize(d, c, result).db.lines;
    var shortage := Max(0, d.balances[k].reserved - result);
    forall i: Id | i < |d.lines| && d.lines[i].sku == k && Open(d.lines[i]) > 0
      ensures HoldingCut(d.lines[i], lines'[i])
    {
      assert LineOk(d.orders, d.lines[i]);
      assert Candidate(d, k, i);
      LineIsCut(d.orders, d.lines[i], lines'[i], Loss(d, k, i, shortage));
    }
  }

  lemma FinalizeCloses(d: Db, c: Id, result: int)
    requires Finalize(d, c, result).Done?
    ensures c < |d.counts| && d.counts[c].sku in d.balances
    ensures var out, k := Finalize(d, c, result), d.counts[c].sku;
            var held, found := d.balances[k].reserved, d.balances[k].onHand;
            && out.db.balances == d.balances[k := Balance(result, Min(held, result))]
            && out.db.counts == d.counts[c := Count(k, Counted, d.counts[c].snapshot, result, Max(0, held - result))]
            && out.db.movements ==
                 d.movements + (if result == found then [] else [Movement(k, Adjusted, result - found)])
            && out.reply == CountFinalized(c, result, Max(0, held - result), result - found)
  {
    StockCountInvariant.FinalizeIs(d, c, result);
  }

  /** A running count is finalized with every result its column can hold. Stock is then what was counted, reserved
      stock no more than that; the difference is booked, and what could not stay reserved is reported as freed. */
  lemma FinalizeOutcome(d: Db, c: Id, result: int)
    requires StockInv(d)
    ensures var out := Finalize(d, c, result);
            && (out.Done? <==> 0 <= result <= MAX_INTEGER && c < |d.counts| && d.counts[c].status == Counting)
            && (out.Done? ==>
                  var k := d.counts[c].sku;
                  && k in d.balances
                  && var held, found := d.balances[k].reserved, d.balances[k].onHand;
                     && out.db.balances == d.balances[k := Balance(result, Min(held, result))]
                     && out.db.counts ==
                          d.counts[c := Count(k, Counted, d.counts[c].snapshot, result, Max(0, held - result))]
                     && out.db.movements ==
                          d.movements + (if result == found then [] else [Movement(k, Adjusted, result - found)])
                     && out.reply == CountFinalized(c, result, Max(0, held - result), result - found)
                     && HoldingsCut(d.lines, out.db.lines, k))
  {
    if result >= 0 {
      StockCountInvariant.FinalizeNeverStuck(d, c, result);
    }
    if Finalize(d, c, result).Done? {
      FinalizeCloses(d, c, result);
      CutIsCut(d, c, result);
    }
  }

  /** Between two open lines of the counted SKU, the one of the later order gives up everything before the other gives
      up anything; orders of the same time go by their identifiers. */
  lemma NewestLoseFirst(d: Db, c: Id, result: int, i: Id, j: Id)
    requires StockInv(d) && Finalize(d, c, result).Done?
    requires i < |d.lines| && d.lines[i].sku == d.counts[c].sku && Open(d.lines[i]) > 0
    requires j < |d.lines| && d.lines[j].sku == d.counts[c].sku && Open(d.lines[j]) > 0
    requires d.lines[i].order < |d.orders| && d.lines[j].order < |d.orders|
    requires var a, b := d.orders[d.lines[i].order], d.orders[d.lines[j].order];
             a.createdAt > b.createdAt || (a.createdAt == b.createdAt && a.uuid > b.uuid)
    ensures |Finalize(d, c, result).db.lines| == |d.lines|
    ensures var lines' := Finalize(d, c, result).db.lines;
            Open(lines'[j]) < Open(d.lines[j]) ==> Open(lines'[i]) == 0
  {
    var k := d.counts[c].sku;
    var shortage := Max(0, d.balances[k].reserved - result);
    FinalizeExact(d, c, result);
    assert Candidate(d, k, i) && Candidate(d, k, j) && LineNewer(d, i, j);
    if Loss(d, k, j, shortage) > 0 {
      OlderLosesLast(d, k, shortage, i, j);
    }
  }
}
