/** What every command keeps true of orders, reservations, balances, movements, work and stock counts. */
module StockInvariant {
  import opened Wrappers
  import opened Tables
  import opened Sums
  import opened Totals

  /** Orders are told apart, and only a confirmed one has a worker. */
  ghost predicate OrdersOk(orders: seq<Order>) {
    && (forall a, b | 0 <= a < b < |orders| :: orders[a].uuid != orders[b].uuid)
    && (forall o | 0 <= o < |orders| :: orders[o].assignee.Some? ==> orders[o].status == Confirmed)
  }

  /** A reservation is active exactly while units remain, a released one keeps its old quantity, and the work never
      runs ahead: inspected <= picked <= remaining. */
  predicate ReservationOk(r: Reservation, reserved: int, requested: int) {
    && 0 <= r.shipped <= r.quantity && 0 < r.quantity
    && (r.status == Fulfilled <==> r.shipped == r.quantity)
    && reserved == (if r.status == Released then r.shipped else r.quantity)
    && reserved <= requested
    && 0 <= r.inspected <= r.picked <= (if r.status == Active then r.quantity - r.shipped else 0)
  }

  predicate LineOk(orders: seq<Order>, l: Line) {
    && l.order < |orders|
    && l.sku.warehouse == orders[l.order].warehouse
    && l.requested > 0
    && match l.reservation
       case None => l.reserved == 0
       case Some(r) =>
         && orders[l.order].status != Submitted
         && (orders[l.order].status == Cancelled ==> r.status != Active)
         && ReservationOk(r, l.reserved, l.requested)
  }

  /** No two lines of an order are of the same SKU. */
  ghost predicate OneLinePerSku(lines: seq<Line>) {
    forall i, j | 0 <= i < j < |lines| :: lines[i].order == lines[j].order ==> lines[i].sku != lines[j].sku
  }

  ghost predicate LinesOk(orders: seq<Order>, lines: seq<Line>) {
    && (forall i | 0 <= i < |lines| :: LineOk(orders, lines[i]))
    && OneLinePerSku(lines)
  }

  /** The reserved quantity is what the SKU's reservations still hold, the stock on hand is what its movements add
      up to, and no more is reserved than is there. */
  ghost predicate BalanceOk(balances: map<Sku, Balance>, lines: seq<Line>, movements: seq<Movement>, k: Sku) {
    var b := BalanceOf(balances, k);
    && b.reserved == Sum(lines, OpenAt(k))
    && b.onHand == Sum(movements, DeltaAt(k))
    && 0 <= b.reserved <= b.onHand
  }

  ghost predicate BalancesOk(balances: map<Sku, Balance>, lines: seq<Line>, movements: seq<Movement>) {
    forall k :: BalanceOk(balances, lines, movements, k)
  }

  /** The reservation event log replays to the line's counters. */
  ghost predicate EventOk(events: seq<Event>, lines: seq<Line>, i: Id) {
    && Sum(events, EventsOf(i, Created)) - Sum(events, EventsOf(i, Freed)) ==
        (if i < |lines| then lines[i].reserved else 0)
    && Sum(events, EventsOf(i, Sent)) == (if i < |lines| then Shipped(lines[i]) else 0)
  }

  ghost predicate EventsOk(events: seq<Event>, lines: seq<Line>) {
    forall i: Id :: EventOk(events, lines, i)
  }

  /** An order whose cancellation is under review is confirmed, has no worker, and has nothing picked. */
  ghost predicate RequestsOk(requests: seq<CancelRequest>, orders: seq<Order>, lines: seq<Line>) {
    && (forall q | 0 <= q < |requests| && requests[q].status == Pending ::
          && requests[q].order < |orders|
          && orders[requests[q].order].status == Confirmed
          && orders[requests[q].order].assignee == None)
    && (forall q, i | 0 <= q < |requests| && 0 <= i < |lines| ::
          requests[q].status == Pending && lines[i].order == requests[q].order ==> Picked(lines[i]) == 0)
    && (forall p, q | 0 <= p < q < |requests| ::
          requests[p].status == Pending && requests[q].status == Pending ==> requests[p].order != requests[q].order)
  }

  /** A counted SKU has a balance and at most one running count, and nothing of a SKU under count is picked. */
  ghost predicate CountsOk(counts: seq<Count>, balances: map<Sku, Balance>, lines: seq<Line>) {
    && (forall c | 0 <= c < |counts| ::
        counts[c].sku in balances && counts[c].snapshot.reserved <= counts[c].snapshot.onHand)
    && (forall c, i | 0 <= c < |counts| && 0 <= i < |lines| ::
          counts[c].status == Counting && lines[i].sku == counts[c].sku ==> Picked(lines[i]) == 0)
    && (forall b, c | 0 <= b < c < |counts| ::
          counts[b].status == Counting && counts[c].status == Counting ==> counts[b].sku != counts[c].sku)
  }

  /** A SKU under count still has the balance the count started from. */
  ghost predicate SnapshotsOk(counts: seq<Count>, balances: map<Sku, Balance>) {
    forall c | 0 <= c < |counts| && counts[c].status == Counting ::
      counts[c].sku in balances && balances[counts[c].sku] == counts[c].snapshot
  }

  ghost predicate StockInv(d: Db) {
    && OrdersOk(d.orders)
    && LinesOk(d.orders, d.lines)
    && BalancesOk(d.balances, d.lines, d.movements)
    && EventsOk(d.events, d.lines)
    && RequestsOk(d.cancelRequests, d.orders, d.lines)
    && CountsOk(d.counts, d.balances, d.lines)
  }

  // ---------- one line rewritten ----------

  /** The columns of a line that are never written again. */
  predicate SameLine(a: Line, b: Line) {
    b == a.(reserved := b.reserved, reservation := b.reservation)
  }

  ghost predicate BalanceSet(balances: map<Sku, Balance>, balances': map<Sku, Balance>, k: Sku, b: Balance) {
    && (forall x | x in balances :: x in balances')
    && (forall x :: BalanceOf(balances', x) == if x == k then b else BalanceOf(balances, x))
  }

  predicate Logged(event: Option<Event>, i: Id, l: Line, l': Line) {
    match event
    case None => l'.reserved == l.reserved && Shipped(l') == Shipped(l)
    case Some(e) =>
      && e.line == i
      && l'.reserved == l.reserved + (match e.kind case Created => e.quantity case Freed => -e.quantity case Sent => 0)
      && Shipped(l') == Shipped(l) + (if e.kind == Sent then e.quantity else 0)
  }

  function Appended<T>(rows: seq<T>, row: Option<T>): seq<T> {
    match row
    case None => rows
    case Some(r) => rows + [r]
  }

  function DeltaOf(move: Option<Movement>): int {
    match move
    case None => 0
    case Some(m) => m.delta
  }

  lemma LineChangeBalances(d: Db, d': Db, i: Id, l': Line, b': Balance, move: Option<Movement>)
    requires i < |d.lines| && SameLine(d.lines[i], l') && d'.lines == d.lines[i := l']
    requires BalancesOk(d.balances, d.lines, d.movements)
    requires BalanceSet(d.balances, d'.balances, d.lines[i].sku, b')
    requires d'.movements == Appended(d.movements, move)
    requires move.Some? ==> move.value.sku == d.lines[i].sku
    requires b'.reserved == BalanceOf(d.balances, l'.sku).reserved + Open(l') - Open(d.lines[i])
    requires b'.onHand == BalanceOf(d.balances, l'.sku).onHand + DeltaOf(move)
    requires 0 <= b'.reserved <= b'.onHand
    ensures BalancesOk(d'.balances, d'.lines, d'.movements)
  {
    forall k ensures BalanceOk(d'.balances, d'.lines, d'.movements, k) {
      assert BalanceOk(d.balances, d.lines, d.movements, k);
      SumUpdate(d.lines, i, l', OpenAt(k));
      if move.Some? {
        SumAppend(d.movements, move.value, DeltaAt(k));
      }
    }
  }

  lemma LineChangeEvents(events: seq<Event>, lines: seq<Line>, i: Id, l': Line, event: Option<Event>)
    requires i < |lines|
    requires EventsOk(events, lines)
    requires Logged(event, i, lines[i], l')
    ensures EventsOk(Appended(events, event), lines[i := l'])
  {
    var events', lines' := Appended(events, event), lines[i := l'];
    forall j: Id ensures EventOk(events', lines', j) {
      assert EventOk(events, lines, j);
      if event.Some? {
        SumAppend(events, event.value, EventsOf(j, Created));
        SumAppend(events, event.value, EventsOf(j, Freed));
        SumAppend(events, event.value, EventsOf(j, Sent));
      }
    }
  }

  lemma LineChangeLines(orders: seq<Order>, lines: seq<Line>, i: Id, l': Line)
    requires i < |lines| && SameLine(lines[i], l')
    requires LinesOk(orders, lines) && LineOk(orders, l')
    ensures LinesOk(orders, lines[i := l'])
  {
  }

  lemma LineChangeRequests(requests: seq<CancelRequest>, orders: seq<Order>, lines: seq<Line>, i: Id, l': Line)
    requires i < |lines| && SameLine(lines[i], l')
    requires RequestsOk(requests, orders, lines)
    requires Picked(l') == 0 || !HasPending(requests, l'.order)
    ensures RequestsOk(requests, orders, lines[i := l'])
  {
  }

  lemma LineChangeCounts(d: Db, d': Db, i: Id, l': Line, b': Balance)
    requires i < |d.lines| && SameLine(d.lines[i], l') && d'.lines == d.lines[i := l']
    requires CountsOk(d.counts, d.balances, d.lines)
    requires BalanceSet(d.balances, d'.balances, l'.sku, b')
    requires Picked(l') == 0 || !UnderCount(d.counts, l'.sku)
    requires b' == BalanceOf(d.balances, l'.sku) || !UnderCount(d.counts, l'.sku)
    ensures CountsOk(d.counts, d'.balances, d'.lines)
  {
  }

  /** Rewriting one line, with its balance, its event and its movement, keeps the invariant when the four agree. */
  lemma LineChange(d: Db, d': Db, i: Id, l': Line, b': Balance, event: Option<Event>, move: Option<Movement>)
    requires StockInv(d) && i < |d.lines|
    requires d'.orders == d.orders && d'.cancelRequests == d.cancelRequests && d'.counts == d.counts
    requires d'.lines == d.lines[i := l'] && SameLine(d.lines[i], l') && LineOk(d.orders, l')
    requires d'.events == Appended(d.events, event) && Logged(event, i, d.lines[i], l')
    requires d'.movements == Appended(d.movements, move) && (move.Some? ==> move.value.sku == l'.sku)
    requires BalanceSet(d.balances, d'.balances, l'.sku, b')
    requires b'.reserved == BalanceOf(d.balances, l'.sku).reserved + Open(l') - Open(d.lines[i])
    requires b'.onHand == BalanceOf(d.balances, l'.sku).onHand + DeltaOf(move)
    requires 0 <= b'.reserved <= b'.onHand
    requires Picked(l') == 0 || (!HasPending(d.cancelRequests, l'.order) && !UnderCount(d.counts, l'.sku))
    requires b' == BalanceOf(d.balances, l'.sku) || !UnderCount(d.counts, l'.sku)
    ensures StockInv(d')
  {
    LineChangeLines(d.orders, d.lines, i, l');
    LineChangeBalances(d, d', i, l', b', move);
    LineChangeEvents(d.events, d.lines, i, l', event);
    LineChangeRequests(d.cancelRequests, d.orders, d.lines, i, l');
    LineChangeCounts(d, d', i, l', b');
  }
}
