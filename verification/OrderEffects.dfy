/** What the order commands without a loop of their own answer and write, row by row of the tables. */
module OrderEffects {
  import opened Wrappers
  import opened Tables
  import opened Sums
  import opened Totals
  import opened StockInvariant
  import opened OrderService
  import opened ReservationEffects

  // ---------- submitting ----------

  /** The item is asked for in units, and the customer has an offer for its product. */
  predicate Orderable(item: Item) {
    item.quantity >= 1 && item.offer.Some?
  }

  ghost predicate AllOrderable(items: seq<Item>) {
    && items != []
    && (forall n: Id | n < |items| :: Orderable(items[n]))
    && (forall m: Id, n: Id | m < n < |items| :: items[m].product != items[n].product)
  }

  lemma SubmittedLine(o: Id, warehouse: Id, items: seq<Item>, n: Id)
    requires AllOrderable(items) && n < |items|
    ensures NewLines(o, warehouse, items)[n] ==
              Line(o, Sku(warehouse, items[n].product), items[n].quantity, 0, items[n].offer.value.price,
                   items[n].offer.value.tax, None)
  {
    assert Orderable(items[n]);
  }

  /** An order is taken exactly when its parties are active, its items are different products, each with an offer and a
      positive quantity, and its identifier is new; it is stored as it came, with one unreserved line per item. */
  lemma SubmitExact(d: Db, customer: Id, warehouse: Id, partiesActive: bool, items: seq<Item>, createdAt: int,
                    uuid: int)
    ensures var out := Submit(d, customer, warehouse, partiesActive, items, createdAt, uuid);
            && (out.Done? <==>
                  partiesActive && AllOrderable(items) && forall o: Id | o < |d.orders| :: d.orders[o].uuid != uuid)
            && (out.Done? ==>
                  && out.db == d.(orders := d.orders + [Order(customer, warehouse, Submitted, createdAt, uuid, None)],
                                  lines := out.db.lines)
                  && out.reply == OrderSubmitted(|d.orders|)
                  && |out.db.lines| == |d.lines| + |items| && out.db.lines[..|d.lines|] == d.lines
                  && forall n: Id | n < |items| ::
                       out.db.lines[|d.lines| + n] ==
                         Line(|d.orders|, Sku(warehouse, items[n].product), items[n].quantity, 0,
                              items[n].offer.value.price, items[n].offer.value.tax, None))
  {
    var out := Submit(d, customer, warehouse, partiesActive, items, createdAt, uuid);
    if AllOrderable(items) {
      forall n | 0 <= n < |items| ensures Orderable(items[n]) {
      }
    }
    if out.Done? {
      forall n: Id | n < |items| ensures Orderable(items[n]) {
      }
      forall n: Id | n < |items|
        ensures out.db.lines[|d.lines| + n] ==
                  Line(|d.orders|, Sku(warehouse, items[n].product), items[n].quantity, 0, items[n].offer.value.price,
                       items[n].offer.value.tax, None)
      {
        SubmittedLine(|d.orders|, warehouse, items, n);
      }
    }
  }

  // ---------- workers ----------

  /** No active line of the order is of a SKU under count. */
  ghost predicate NothingCounted(d: Db, o: Id) {
    forall i: Id, c: Id | i < |d.lines| && c < |d.counts| ::
      d.lines[i].order == o && IsActive(d.lines[i]) && d.counts[c].status == Counting ==>
        d.counts[c].sku != d.lines[i].sku
  }

  ghost predicate NothingPending(d: Db, o: Id) {
    forall q: Id | q < |d.cancelRequests| && d.cancelRequests[q].order == o :: d.cancelRequests[q].status != Pending
  }

  lemma CountedIsCounted(d: Db, o: Id)
    ensures HasCountedActiveLine(d, o) <==> !NothingCounted(d, o)
  {
    if HasCountedActiveLine(d, o) {
      var i :| 0 <= i < |d.lines| && d.lines[i].order == o && IsActive(d.lines[i])
               && UnderCount(d.counts, d.lines[i].sku);
      var c :| 0 <= c < |d.counts| && d.counts[c].status == Counting && d.counts[c].sku == d.lines[i].sku;
    }
  }

  /** Work is taken exactly on a confirmed order that holds something, of which nothing is counted, that nobody asked to
      cancel and no other worker has; the order is then the caller's. */
  lemma ClaimExact(d: Db, actor: Id, o: Id)
    ensures var out := Claim(d, actor, o);
            && (out.Done? <==>
                  && o < |d.orders| && d.orders[o].status == Confirmed
                  && (exists i: Id ::
                        i < |d.lines| && d.lines[i].order == o && IsActive(d.lines[i]) && Open(d.lines[i]) > 0)
                  && NothingPending(d, o) && NothingCounted(d, o)
                  && (d.orders[o].assignee == None || d.orders[o].assignee == Some(actor)))
            && (out.Done? ==>
                  && out.db == d.(orders := d.orders[o := d.orders[o].(assignee := Some(actor))])
                  && out.reply == WorkClaimed(o, actor))
  {
    CountedIsCounted(d, o);
  }

  /** Only the worker who has an order gives it back. */
  lemma ReleaseWorkExact(d: Db, actor: Id, o: Id)
    ensures var out := ReleaseWork(d, actor, o);
            && (out.Done? <==> o < |d.orders| && d.orders[o].assignee == Some(actor))
            && (out.Done? ==>
                  && out.db == d.(orders := d.orders[o := d.orders[o].(assignee := None)])
                  && out.reply == WorkReleased(o, actor))
  {
  }

  // ---------- cancelling ----------

  /** Every line of the order keeps what it shipped and nothing else; the other lines are as before. */
  ghost predicate GaveUp(lines: seq<Line>, lines': seq<Line>, o: Id) {
    && |lines'| == |lines|
    && (forall i: Id | i < |lines| && lines[i].order != o :: lines'[i] == lines[i])
    && (forall i: Id | i < |lines| && lines[i].order == o ::
          && SameLine(lines[i], lines'[i])
          && !IsActive(lines'[i]) && Open(lines'[i]) == 0 && Shipped(lines'[i]) == Shipped(lines[i])
          && lines'[i].reserved == Shipped(lines[i]) && Picked(lines'[i]) == 0 && InspectedOf(lines'[i]) == 0)
  }

  lemma ReleasedGaveUp(d: Db, lines': seq<Line>, o: Id)
    requires StockInv(d) && Rewritten(d.lines, lines', o, 0, Releasing())
    ensures GaveUp(d.lines, lines', o)
  {
    forall i: Id | i < |d.lines| && d.lines[i].order == o
      ensures lines'[i] == ReleasedLine(d.lines[i]) && LineOk(d.orders, d.lines[i])
    {
    }
  }

  /** An order is cancelled exactly when it is confirmed, nobody asked for it before, and nothing it holds is counted;
      it then has no worker and holds nothing, and the reply says how much it held. */
  lemma CancelExact(d: Db, o: Id)
    requires StockInv(d)
    ensures var out := Cancel(d, o);
            && (out.Done? <==>
                  o < |d.orders| && d.orders[o].status == Confirmed && NothingPending(d, o) && NothingCounted(d, o))
            && (out.Done? ==>
                  && out.db.orders == d.orders[o := d.orders[o].(status := Cancelled, assignee := None)]
                  && out.db.cancelRequests == d.cancelRequests
                  && GaveUp(d.lines, out.db.lines, o)
                  && out.reply == OrderCancelled(o, Sum(d.lines, HeldBy(o))))
  {
    CountedIsCounted(d, o);
    if o < |d.orders| {
      ReleaseOrderExact(d, o);
      if Cancel(d, o).Done? {
        ReleasedGaveUp(d, Cancel(d, o).db.lines, o);
      }
    }
  }

  /** Every line of the order has its work undone and is as before otherwise; so are the other lines. */
  ghost predicate WorkUndone(lines: seq<Line>, lines': seq<Line>, o: Id) {
    && |lines'| == |lines|
    && (forall i: Id | i < |lines| && lines[i].order != o :: lines'[i] == lines[i])
    && (forall i: Id | i < |lines| && lines[i].order == o ::
          && lines'[i] == lines[i].(reservation := lines'[i].reservation)
          && Picked(lines'[i]) == 0 && InspectedOf(lines'[i]) == 0
          && Shipped(lines'[i]) == Shipped(lines[i]) && Open(lines'[i]) == Open(lines[i])
          && (IsActive(lines'[i]) <==> IsActive(lines[i])))
  }

  lemma UnshippedSomewhere(d: Db, o: Id)
    requires StockInv(d)
    ensures Sum(d.lines, UnshippedOf(o)) >= 1 <==>
              exists i: Id :: i < |d.lines| && d.lines[i].order == o && Shipped(d.lines[i]) < d.lines[i].requested
  {
    forall i | 0 <= i < |d.lines| ensures UnshippedOf(o)(d.lines[i]) >= 0 {
      assert LineOk(d.orders, d.lines[i]);
    }
    if i: Id :| i < |d.lines| && d.lines[i].order == o && Shipped(d.lines[i]) < d.lines[i].requested {
      SumBounds(d.lines, UnshippedOf(o), i);
    } else {
      SumZero(d.lines, UnshippedOf(o));
    }
  }

  lemma ResetIsUndone(d: Db, o: Id)
    requires StockInv(d)
    ensures WorkUndone(d.lines, ResetWork(d.lines, o), o)
  {
    forall i: Id | i < |d.lines| && d.lines[i].order == o ensures LineOk(d.orders, d.lines[i]) {
    }
  }

  /** A customer may ask to cancel exactly an order of its own that is confirmed, not shipped in full, and not under
      review already; the order then has no worker and no work. */
  lemma RequestCancellationExact(d: Db, customer: Id, o: Id)
    requires StockInv(d)
    ensures var out := RequestCancellation(d, customer, o);
            && (out.Done? <==>
                  && o < |d.orders| && d.orders[o].customer == customer && d.orders[o].status == Confirmed
                  && (exists i: Id ::
                        i < |d.lines| && d.lines[i].order == o && Shipped(d.lines[i]) < d.lines[i].requested)
                  && NothingPending(d, o))
            && (out.Done? ==>
                  && out.db == d.(orders := d.orders[o := d.orders[o].(assignee := None)], lines := out.db.lines,
                                  cancelRequests := d.cancelRequests + [CancelRequest(o, Pending)])
                  && WorkUndone(d.lines, out.db.lines, o)
                  && out.reply == CancellationRequested(|d.cancelRequests|, o))
  {
    UnshippedSomewhere(d, o);
    ResetIsUndone(d, o);
  }

  /** A request is reviewed once. It can always be rejected, which changes nothing else; it can be approved exactly when
      nothing the order holds is counted, which cancels the order as its own cancellation would. */
  lemma ReviewExact(d: Db, q: Id, approve: bool)
    requires StockInv(d)
    ensures var out := Review(d, q, approve);
            && (out.Done? <==>
                  && q < |d.cancelRequests| && d.cancelRequests[q].status == Pending
                  && (approve ==> NothingCounted(d, d.cancelRequests[q].order)))
            && (out.Done? ==>
                  var o := d.cancelRequests[q].order;
                  && o < |d.orders|
                  && (!approve ==>
                        && out.db == d.(cancelRequests := d.cancelRequests[q := CancelRequest(o, Rejected)])
                        && out.reply == CancellationRejected(q, o))
                  && (approve ==>
                        && out.db.cancelRequests == d.cancelRequests[q := CancelRequest(o, Approved)]
                        && out.db.orders == d.orders[o := d.orders[o].(status := Cancelled, assignee := None)]
                        && GaveUp(d.lines, out.db.lines, o)
                        && out.reply == CancellationApproved(q, o, Sum(d.lines, HeldBy(o)))))
  {
    if q < |d.cancelRequests| && d.cancelRequests[q].status == Pending {
      var o := d.cancelRequests[q].order;
      CountedIsCounted(d, o);
      ReleaseOrderExact(d, o);
      if approve && Review(d, q, approve).Done? {
        ReleaseOrderRequests(d, o);
        ReleasedGaveUp(d, Review(d, q, approve).db.lines, o);
      }
    }
  }

  lemma ReleaseOrderRequests(d: Db, o: Id)
    requires o < |d.orders| && ReleaseOrder(d, o).Row?
    ensures ReleaseOrder(d, o).db.cancelRequests == d.cancelRequests
  {
  }
}
