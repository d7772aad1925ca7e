/** Confirming, allocating and cancelling, stated without their loops: when they succeed, what every line becomes, and
    what the caller is told. */
module ReservationEffects {
  import opened Wrappers
  import opened Tables
  import opened Sums
  import opened StockInvariant
  import opened OrderService
  import OrderInvariant

  // ---------- what each line gets ----------

  function Granted(balances: map<Sku, Balance>, l: Line): int {
    Min(l.requested, Available(balances, l.sku))
  }

  function GrantedLine(balances: map<Sku, Balance>, l: Line): Line {
    var quantity := Granted(balances, l);
    if quantity == 0 then l
    else l.(reserved := quantity, reservation := Some(Reservation(quantity, 0, Active, 0, 0)))
  }

  function GrantedTo(balances: map<Sku, Balance>, o: Id): Line -> int {
    (l: Line) => if l.order == o then Granted(balances, l) else 0
  }

  function MissingFor(balances: map<Sku, Balance>, o: Id): Line -> int {
    (l: Line) => if l.order == o then l.requested - Granted(balances, l) else 0
  }

  function Added(balances: map<Sku, Balance>, l: Line): int {
    Min(Max(0, l.requested - l.reserved), Available(balances, l.sku))
  }

  function AddedLine(balances: map<Sku, Balance>, l: Line): Line {
    var quantity := Added(balances, l);
    if quantity == 0 then l
    else l.(reserved := l.reserved + quantity, reservation := Some(Extend(l.reservation, quantity)))
  }

  function AddedTo(balances: map<Sku, Balance>, o: Id): Line -> int {
    (l: Line) => if l.order == o then Added(balances, l) else 0
  }

  function StillWaitingFor(balances: map<Sku, Balance>, o: Id): Line -> int {
    (l: Line) => if l.order == o then Max(0, l.requested - l.reserved) - Added(balances, l) else 0
  }

  /** A cancelled order's line keeps what it shipped and nothing else. */
  function ReleasedLine(l: Line): Line {
    if IsActive(l) && Open(l) != 0 then
      Unworked(l.(reserved := l.reserved - Open(l), reservation := Some(l.reservation.value.(status := Released))))
    else Unworked(l)
  }

  function HeldBy(o: Id): Line -> int {
    (l: Line) => if l.order == o then Open(l) else 0
  }

  /** From position `i` on, exactly the order's lines are rewritten. */
  ghost predicate Rewritten(lines: seq<Line>, lines': seq<Line>, o: Id, i: nat, rewrite: Line -> Line) {
    && |lines'| == |lines|
    && forall j: Id | j < |lines| ::
         lines'[j] == if j >= i && lines[j].order == o then rewrite(lines[j]) else lines[j]
  }

  /** The total over the lines a walk still has ahead of it. */
  function Rest(lines: seq<Line>, i: nat, weight: Line -> int): int
    decreases |lines| - i
  {
    if i >= |lines| then 0 else weight(lines[i]) + Rest(lines, i + 1, weight)
  }

  lemma {:induction false} RestIsSum(lines: seq<Line>, i: nat, weight: Line -> int)
    requires i <= |lines|
    ensures Sum(lines[..i], weight) + Rest(lines, i, weight) == Sum(lines, weight)
    decreases |lines| - i
  {
    if i < |lines| {
      assert lines[..i + 1] == lines[..i] + [lines[i]];
      SumAppend(lines[..i], lines[i], weight);
      RestIsSum(lines, i + 1, weight);
    } else {
      assert lines[..i] == lines;
    }
  }

  lemma {:induction false} RestSame(lines: seq<Line>, lines': seq<Line>, i: nat, weight: Line -> int,
                                    weight': Line -> int)
    requires |lines| == |lines'|
    requires forall j: Id | i <= j < |lines| :: weight(lines[j]) == weight'(lines'[j])
    ensures Rest(lines, i, weight) == Rest(lines', i, weight')
    decreases |lines| - i
  {
    if i < |lines| {
      RestSame(lines, lines', i + 1, weight, weight');
    }
  }

  /** A row of the walk leaves the balances its other lines depend on alone. */
  lemma OthersUnaffected(lines: seq<Line>, balances: map<Sku, Balance>, i: Id, b: Balance, j: Id)
    requires OneLinePerSku(lines) && i < j < |lines| && lines[i].order == lines[j].order
    ensures Available(balances[lines[i].sku := b], lines[j].sku) == Available(balances, lines[j].sku)
  {
  }

  // ---------- confirm ----------

  function Confirming(balances: map<Sku, Balance>): Line -> Line {
    (l: Line) => GrantedLine(balances, l)
  }

  ghost predicate Uncounted(counts: seq<Count>, lines: seq<Line>, o: Id, i: nat) {
    forall j: Id | i <= j < |lines| && lines[j].order == o :: !UnderCount(counts, lines[j].sku)
  }

  lemma UncountedSame(counts: seq<Count>, lines: seq<Line>, lines': seq<Line>, o: Id, i: nat)
    requires |lines'| == |lines|
    requires forall j: Id | i <= j < |lines| :: lines'[j] == lines[j]
    ensures Uncounted(counts, lines, o, i) <==> Uncounted(counts, lines', o, i)
  {
    forall j: Id | i <= j < |lines| ensures lines'[j].order == lines[j].order && lines'[j].sku == lines[j].sku {
    }
  }

  lemma {:induction false} ConfirmFromSucceeds(d: Db, o: Id, i: nat, reserved: int, unreserved: int)
    requires o < |d.orders|
    ensures ConfirmFrom(d, o, i, reserved, unreserved).Done? <==> Uncounted(d.counts, d.lines, o, i)
    decreases |d.lines| - i
  {
    if i < |d.lines| {
      if d.lines[i].order != o {
        ConfirmFromSucceeds(d, o, i + 1, reserved, unreserved);
      } else {
        match ConfirmRow(d, i)
        case Stop(_) =>
        case Row(d', quantity) =>
          ConfirmFromSucceeds(d', o, i + 1, reserved + quantity, unreserved + d.lines[i].requested - quantity);
          UncountedSame(d.counts, d.lines, d'.lines, o, i + 1);
      }
    }
  }

  lemma {:induction false} ConfirmFromLines(d: Db, o: Id, i: nat, reserved: int, unreserved: int)
    requires o < |d.orders| && OneLinePerSku(d.lines)
    requires ConfirmFrom(d, o, i, reserved, unreserved).Done?
    ensures Rewritten(d.lines, ConfirmFrom(d, o, i, reserved, unreserved).db.lines, o, i, Confirming(d.balances))
    ensures ConfirmFrom(d, o, i, reserved, unreserved).db.orders == d.orders[o := d.orders[o].(status := Confirmed)]
    decreases |d.lines| - i
  {
    if i < |d.lines| {
      if d.lines[i].order != o {
        ConfirmFromLines(d, o, i + 1, reserved, unreserved);
      } else {
        var d', quantity := ConfirmRow(d, i).db, ConfirmRow(d, i).moved;
        ConfirmFromLines(d', o, i + 1, reserved + quantity, unreserved + d.lines[i].requested - quantity);
        forall j: Id | i < j < |d.lines| && d.lines[j].order == o
          ensures GrantedLine(d'.balances, d'.lines[j]) == GrantedLine(d.balances, d.lines[j])
        {
          OthersUnaffected(d.lines, d.balances, i, BalanceOf(d'.balances, d.lines[i].sku), j);
        }
      }
    }
  }

  lemma ConfirmRowRest(d: Db, o: Id, i: Id)
    requires OneLinePerSku(d.lines) && i < |d.lines| && d.lines[i].order == o && ConfirmRow(d, i).Row?
    ensures var d' := ConfirmRow(d, i).db;
            && |d'.lines| == |d.lines| && ConfirmRow(d, i).moved == Granted(d.balances, d.lines[i])
            && Rest(d'.lines, i + 1, GrantedTo(d'.balances, o)) == Rest(d.lines, i + 1, GrantedTo(d.balances, o))
            && Rest(d'.lines, i + 1, MissingFor(d'.balances, o)) == Rest(d.lines, i + 1, MissingFor(d.balances, o))
  {
    var d' := ConfirmRow(d, i).db;
    forall j: Id | i < j < |d.lines| && d.lines[j].order == o
      ensures Granted(d'.balances, d'.lines[j]) == Granted(d.balances, d.lines[j])
    {
      OthersUnaffected(d.lines, d.balances, i, BalanceOf(d'.balances, d.lines[i].sku), j);
    }
    RestSame(d'.lines, d.lines, i + 1, GrantedTo(d'.balances, o), GrantedTo(d.balances, o));
    RestSame(d'.lines, d.lines, i + 1, MissingFor(d'.balances, o), MissingFor(d.balances, o));
  }

  lemma {:induction false} ConfirmFromReply(d: Db, o: Id, i: nat, reserved: int, unreserved: int)
    requires o < |d.orders| && OneLinePerSku(d.lines)
    requires ConfirmFrom(d, o, i, reserved, unreserved).Done? && i <= |d.lines|
    ensures ConfirmFrom(d, o, i, reserved, unreserved).reply ==
              OrderConfirmed(o, reserved + Rest(d.lines, i, GrantedTo(d.balances, o)),
                             unreserved + Rest(d.lines, i, MissingFor(d.balances, o)))
    decreases |d.lines| - i
  {
    if i < |d.lines| {
      if d.lines[i].order != o {
        ConfirmFromReply(d, o, i + 1, reserved, unreserved);
      } else {
        var d', quantity := ConfirmRow(d, i).db, ConfirmRow(d, i).moved;
        ConfirmFromReply(d', o, i + 1, reserved + quantity, unreserved + d.lines[i].requested - quantity);
        ConfirmRowRest(d, o, i);
      }
    }
  }

  /** Confirming succeeds exactly for a submitted order none of whose products is being counted; then each line gets
      what it asked for or what there is, whichever is less, and the reply adds it up. */
  lemma ConfirmExact(d: Db, o: Id)
    requires OneLinePerSku(d.lines)
    ensures var out := Confirm(d, o);
            && (out.Done? <==> o < |d.orders| && d.orders[o].status == Submitted && Uncounted(d.counts, d.lines, o, 0))
            && (out.Done? ==>
                  && out.db.orders == d.orders[o := d.orders[o].(status := Confirmed)]
                  && Rewritten(d.lines, out.db.lines, o, 0, Confirming(d.balances))
                  && out.reply == OrderConfirmed(o, Sum(d.lines, GrantedTo(d.balances, o)),
                                                 Sum(d.lines, MissingFor(d.balances, o))))
  {
    if o < |d.orders| && d.orders[o].status == Submitted {
      ConfirmFromSucceeds(d, o, 0, 0, 0);
      if Confirm(d, o).Done? {
        ConfirmFromLines(d, o, 0, 0, 0);
        ConfirmFromReply(d, o, 0, 0, 0);
        RestIsSum(d.lines, 0, GrantedTo(d.balances, o));
        RestIsSum(d.lines, 0, MissingFor(d.balances, o));
      }
    }
  }

  // ---------- allocate ----------

  function Allocating(balances: map<Sku, Balance>): Line -> Line {
    (l: Line) => AddedLine(balances, l)
  }

  /** One row of the walk: its line is rewritten, and the other lines of the order find what they found before. */
  lemma AllocateRowLines(d: Db, o: Id, i: Id)
    requires OneLinePerSku(d.lines) && Uncounted(d.counts, d.lines, o, i) && i < |d.lines| && d.lines[i].order == o
    ensures AllocateRow(d, i).Row?
    ensures var d' := AllocateRow(d, i).db;
            && d'.lines == d.lines[i := AddedLine(d.balances, d.lines[i])] && d'.orders == d.orders
            && OneLinePerSku(d'.lines) && Uncounted(d'.counts, d'.lines, o, i + 1)
            && forall j: Id | i < j < |d.lines| && d.lines[j].order == o ::
                 AddedLine(d'.balances, d'.lines[j]) == AddedLine(d.balances, d.lines[j])
  {
    var d' := AllocateRow(d, i).db;
    assert d.lines[i := d.lines[i]] == d.lines;
    forall j: Id | i < j < |d.lines| && d.lines[j].order == o
      ensures AddedLine(d'.balances, d'.lines[j]) == AddedLine(d.balances, d.lines[j])
    {
      OthersUnaffected(d.lines, d.balances, i, BalanceOf(d'.balances, d.lines[i].sku), j);
    }
  }

  lemma {:induction false} AllocateFromLines(d: Db, o: Id, i: nat, added: int, waiting: int)
    requires OneLinePerSku(d.lines) && Uncounted(d.counts, d.lines, o, i)
    ensures AllocateFrom(d, o, i, added, waiting).Done?
    ensures Rewritten(d.lines, AllocateFrom(d, o, i, added, waiting).db.lines, o, i, Allocating(d.balances))
    ensures AllocateFrom(d, o, i, added, waiting).db.orders == d.orders
    decreases |d.lines| - i
  {
    if i < |d.lines| {
      if d.lines[i].order != o {
        AllocateFromLines(d, o, i + 1, added, waiting);
      } else {
        AllocateRowLines(d, o, i);
        var d', quantity := AllocateRow(d, i).db, AllocateRow(d, i).moved;
        AllocateFromLines(d', o, i + 1, added + quantity, waiting + Waiting(d.lines[i]) - quantity);
      }
    }
  }

  lemma AllocateRowRest(d: Db, o: Id, i: Id)
    requires OneLinePerSku(d.lines) && i < |d.lines| && d.lines[i].order == o && AllocateRow(d, i).Row?
    ensures var d' := AllocateRow(d, i).db;
            && |d'.lines| == |d.lines| && AllocateRow(d, i).moved == Added(d.balances, d.lines[i])
            && Rest(d'.lines, i + 1, AddedTo(d'.balances, o)) == Rest(d.lines, i + 1, AddedTo(d.balances, o))
            && Rest(d'.lines, i + 1, StillWaitingFor(d'.balances, o)) ==
                Rest(d.lines, i + 1, StillWaitingFor(d.balances, o))
  {
    var d' := AllocateRow(d, i).db;
    forall j: Id | i < j < |d.lines| && d.lines[j].order == o
      ensures Added(d'.balances, d'.lines[j]) == Added(d.balances, d.lines[j])
    {
      OthersUnaffected(d.lines, d.balances, i, BalanceOf(d'.balances, d.lines[i].sku), j);
    }
    RestSame(d'.lines, d.lines, i + 1, AddedTo(d'.balances, o), AddedTo(d.balances, o));
    RestSame(d'.lines, d.lines, i + 1, StillWaitingFor(d'.balances, o), StillWaitingFor(d.balances, o));
  }

  lemma {:induction false} AllocateFromReply(d: Db, o: Id, i: nat, added: int, waiting: int)
    requires OneLinePerSku(d.lines) && i <= |d.lines|
    requires AllocateFrom(d, o, i, added, waiting).Done?
    ensures AllocateFrom(d, o, i, added, waiting).reply ==
              OrderAllocated(o, added + Rest(d.lines, i, AddedTo(d.balances, o)),
                             waiting + Rest(d.lines, i, StillWaitingFor(d.balances, o)))
    decreases |d.lines| - i
  {
    if i < |d.lines| {
      if d.lines[i].order != o {
        AllocateFromReply(d, o, i + 1, added, waiting);
      } else {
        var d', quantity := AllocateRow(d, i).db, AllocateRow(d, i).moved;
        AllocateFromReply(d', o, i + 1, added + quantity, waiting + Waiting(d.lines[i]) - quantity);
        AllocateRowRest(d, o, i);
      }
    }
  }

  /** Allocating succeeds exactly for a confirmed order without a pending cancellation or a product under count; then
      each line gets what it still waits for or what there is, and the reply adds it up. */
  lemma AllocateExact(d: Db, o: Id)
    requires OneLinePerSku(d.lines)
    ensures var out := Allocate(d, o);
            && (out.Done? <==> && o < |d.orders| && d.orders[o].status == Confirmed
                               && !HasPending(d.cancelRequests, o) && Uncounted(d.counts, d.lines, o, 0))
            && (out.Done? ==>
                  && out.db.orders == d.orders
                  && Rewritten(d.lines, out.db.lines, o, 0, Allocating(d.balances))
                  && out.reply == OrderAllocated(o, Sum(d.lines, AddedTo(d.balances, o)),
                                                 Sum(d.lines, StillWaitingFor(d.balances, o))))
  {
    if Uncounted(d.counts, d.lines, o, 0) {
      AllocateFromLines(d, o, 0, 0, 0);
      AllocateFromReply(d, o, 0, 0, 0);
      RestIsSum(d.lines, 0, AddedTo(d.balances, o));
      RestIsSum(d.lines, 0, StillWaitingFor(d.balances, o));
    }
  }

  /** Whatever state its reservation was in, a line that is given more holds exactly that much more, has shipped and
      picked as much as before, and counts as reserved what its reservation says; a released reservation is reopened
      without its old quantity. */
  lemma AllocationAdds(d: Db, o: Id, i: Id)
    requires StockInv(d) && i < |d.lines| && d.lines[i].order == o && Allocate(d, o).Done?
    ensures i < |Allocate(d, o).db.lines|
    ensures var l, l', quantity := d.lines[i], Allocate(d, o).db.lines[i], Added(d.balances, d.lines[i]);
            && 0 <= quantity <= l.requested - l.reserved
            && Open(l') == Open(l) + quantity
            && Shipped(l') == Shipped(l) && Picked(l') == Picked(l) && InspectedOf(l') == InspectedOf(l)
            && l'.reserved == l.reserved + quantity
            && (quantity > 0 ==> IsActive(l') && l'.reservation.value.quantity == l'.reserved)
  {
    AllocateExact(d, o);
    assert LineOk(d.orders, d.lines[i]);
  }

  // ---------- cancel ----------

  function Releasing(): Line -> Line {
    (l: Line) => ReleasedLine(l)
  }

  /** Every unit a line holds is also reserved on its SKU's balance. */
  ghost predicate Backed(d: Db, o: Id, i: nat) {
    forall j: Id | i <= j < |d.lines| && d.lines[j].order == o && Open(d.lines[j]) != 0 ::
      d.lines[j].sku in d.balances && Open(d.lines[j]) <= d.balances[d.lines[j].sku].reserved
  }

  ghost predicate FreeToRelease(counts: seq<Count>, lines: seq<Line>, o: Id, i: nat) {
    forall j: Id | i <= j < |lines| && lines[j].order == o && Open(lines[j]) != 0 :: !UnderCount(counts, lines[j].sku)
  }

  ghost predicate WorkReset(lines: seq<Line>, o: Id) {
    forall j: Id | j < |lines| && lines[j].order == o :: lines[j] == Unworked(lines[j])
  }

  /** After a row, the rest of the walk finds what it would have found before. */
  lemma ReleaseRowRest(d: Db, o: Id, i: Id)
    requires OneLinePerSku(d.lines) && Backed(d, o, i) && WorkReset(d.lines, o) && i < |d.lines|
    requires d.lines[i].order == o
    ensures ReleaseRow(d, i).Row? <==> Open(d.lines[i]) == 0 || !UnderCount(d.counts, d.lines[i].sku)
    ensures ReleaseRow(d, i).Row? ==>
              var d' := ReleaseRow(d, i).db;
              && |d'.lines| == |d.lines| && d'.counts == d.counts
              && ReleaseRow(d, i).moved == Open(d.lines[i])
              && d'.lines == d.lines[i := ReleasedLine(d.lines[i])]
              && Backed(d', o, i + 1) && WorkReset(d'.lines, o)
              && Rest(d'.lines, i + 1, HeldBy(o)) == Rest(d.lines, i + 1, HeldBy(o))
  {
    if ReleaseRow(d, i).Row? {
      var d' := ReleaseRow(d, i).db;
      RestSame(d'.lines, d.lines, i + 1, HeldBy(o), HeldBy(o));
    }
  }

  lemma FreeSame(counts: seq<Count>, lines: seq<Line>, o: Id, i: Id, l': Line)
    requires i < |lines| && lines[i].order == o
    ensures FreeToRelease(counts, lines, o, i) <==>
              (Open(lines[i]) == 0 || !UnderCount(counts, lines[i].sku))
                  && FreeToRelease(counts, lines[i := l'], o, i + 1)
  {
    var lines' := lines[i := l'];
    forall j: Id | i < j < |lines| ensures lines'[j] == lines[j] {
    }
  }

  lemma {:induction false} ReleaseFromSucceeds(d: Db, o: Id, i: nat, freed: int)
    requires OneLinePerSku(d.lines) && Backed(d, o, i) && WorkReset(d.lines, o)
    ensures var row := ReleaseFrom(d, o, i, freed);
            && (row.Row? <==> FreeToRelease(d.counts, d.lines, o, i))
            && (row.Row? ==> row.moved == freed + Rest(d.lines, i, HeldBy(o)))
    decreases |d.lines| - i
  {
    if i < |d.lines| {
      if d.lines[i].order != o {
        ReleaseFromSucceeds(d, o, i + 1, freed);
      } else {
        ReleaseRowRest(d, o, i);
        FreeSame(d.counts, d.lines, o, i, ReleasedLine(d.lines[i]));
        match ReleaseRow(d, i)
        case Stop(_) =>
        case Row(d', quantity) =>
          ReleaseFromSucceeds(d', o, i + 1, freed + quantity);
      }
    }
  }

  lemma {:induction false} ReleaseFromLines(d: Db, o: Id, i: nat, freed: int)
    requires WorkReset(d.lines, o) && ReleaseFrom(d, o, i, freed).Row?
    ensures Rewritten(d.lines, ReleaseFrom(d, o, i, freed).db.lines, o, i, Releasing())
    decreases |d.lines| - i
  {
    if i < |d.lines| {
      if d.lines[i].order != o {
        ReleaseFromLines(d, o, i + 1, freed);
      } else {
        ReleaseFromLines(ReleaseRow(d, i).db, o, i + 1, freed + ReleaseRow(d, i).moved);
      }
    }
  }

  /** Dropping a line's work leaves what it holds; what it holds is reserved on its SKU's balance. */
  lemma ResetLine(d: Db, o: Id, j: Id)
    requires StockInv(d) && j < |d.lines|
    ensures var l' := ResetWork(d.lines, o)[j];
            && Open(l') == Open(d.lines[j]) && IsActive(l') == IsActive(d.lines[j])
            && l'.sku == d.lines[j].sku && l'.order == d.lines[j].order
    ensures IsActive(d.lines[j]) <==> Open(d.lines[j]) != 0
    ensures Open(d.lines[j]) != 0 ==>
              d.lines[j].sku in d.balances && Open(d.lines[j]) <= d.balances[d.lines[j].sku].reserved
  {
    OrderInvariant.OpenIsReserved(d, j);
  }

  lemma ResetIsBacked(d: Db, o: Id)
    requires StockInv(d)
    ensures var d0 := d.(lines := ResetWork(d.lines, o));
            Backed(d0, o, 0) && WorkReset(d0.lines, o) && OneLinePerSku(d0.lines)
  {
    forall j: Id | j < |d.lines|
      ensures ResetWork(d.lines, o)[j].sku == d.lines[j].sku && ResetWork(d.lines, o)[j].order == d.lines[j].order
      ensures Open(ResetWork(d.lines, o)[j]) == Open(d.lines[j])
      ensures Open(d.lines[j]) != 0 ==>
                d.lines[j].sku in d.balances && Open(d.lines[j]) <= d.balances[d.lines[j].sku].reserved
    {
      ResetLine(d, o, j);
    }
  }

  /** What a line holds is what its order's cancellation gives back, whether or not its work was dropped first. */
  lemma ResetHoldsTheSame(d: Db, o: Id)
    requires StockInv(d)
    ensures var lines' := ResetWork(d.lines, o);
            && (FreeToRelease(d.counts, lines', o, 0) <==> !HasCountedActiveLine(d, o))
            && Sum(lines', HeldBy(o)) == Sum(d.lines, HeldBy(o))
  {
    var lines' := ResetWork(d.lines, o);
    forall j: Id | j < |d.lines|
      ensures IsActive(d.lines[j]) <==> Open(d.lines[j]) != 0
      ensures lines'[j].sku == d.lines[j].sku && lines'[j].order == d.lines[j].order
      ensures Open(lines'[j]) == Open(d.lines[j])
    {
      ResetLine(d, o, j);
    }
    SumEqual(lines', HeldBy(o), d.lines, HeldBy(o));
  }

  lemma ReleasedFromReset(lines: seq<Line>, lines': seq<Line>, o: Id)
    requires Rewritten(ResetWork(lines, o), lines', o, 0, Releasing())
    ensures Rewritten(lines, lines', o, 0, Releasing())
  {
  }

  /** Cancelling succeeds exactly when no product the order still holds is being counted; then every line gives up all
      it holds, every bit of work is dropped, and the number of freed units is what the order held. */
  lemma ReleaseOrderExact(d: Db, o: Id)
    requires StockInv(d) && o < |d.orders|
    ensures var row := ReleaseOrder(d, o);
            && (row.Row? <==> !HasCountedActiveLine(d, o))
            && (row.Row? ==>
                  && row.db.orders == d.orders[o := d.orders[o].(status := Cancelled, assignee := None)]
                  && Rewritten(d.lines, row.db.lines, o, 0, Releasing())
                  && row.moved == Sum(d.lines, HeldBy(o)))
  {
    var d0 := d.(lines := ResetWork(d.lines, o));
    ResetIsBacked(d, o);
    ResetHoldsTheSame(d, o);
    ReleaseFromSucceeds(d0, o, 0, 0);
    if ReleaseOrder(d, o).Row? {
      ReleaseFromLines(d0, o, 0, 0);
      ReleasedFromReset(d.lines, ReleaseFrom(d0, o, 0, 0).db.lines, o);
    }
    RestIsSum(d0.lines, 0, HeldBy(o));
  }
}
