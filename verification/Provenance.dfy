/** Every state an order, a cancellation request, a count, a settlement or a payment is in, it got from a call that says
    so, and from the state before it in its life. */
module Provenance {
  import opened Wrappers
  import opened Tables
  import opened StockInvariant
  import opened BooksInvariant
  import opened Commands
  import opened Invariant
  import opened CancellationSafety
  import CountEffects
  import CountFreeze
  import OrderEffects
  import OrderTerms
  import PaymentEffects
  import ReservationEffects
  import SettlementHistory
  import WorkSafety

  // ---------- orders and cancellation requests, command by command ----------

  /** The request is approved by the command, and is about the order. */
  predicate Approves(d: Db, op: Op, o: Id) {
    && op.ReviewCancellation? && op.approve
    && op.request < |d.cancelRequests| && d.cancelRequests[op.request] == CancelRequest(o, Pending)
  }

  /** An order is confirmed once, and cancelled only after that, by its cancellation or the approval of a request. */
  ghost predicate OrderMoves(d: Db, op: Op, d': Db, o: Id) {
    && o < |d.orders| <= |d'.orders|
    && (|| d'.orders[o].status == d.orders[o].status
        || (op == ConfirmOrder(o) && d.orders[o].status == Submitted && d'.orders[o].status == Confirmed)
        || ((op == CancelOrder(o) || Approves(d, op, o))
            && d.orders[o].status == Confirmed && d'.orders[o].status == Cancelled))
  }

  lemma WorkOpMoves(d: Db, actor: Id, op: Op, o: Id)
    requires StockInv(d) && Apply(d, actor, op).Done? && About(d, op) == Some(o) && o < |d.orders|
    requires op.ConfirmOrder? || op.AllocateOrder? || op.ClaimWork? || op.ReleaseWork? || op.SetWork?
    ensures OrderMoves(d, op, Apply(d, actor, op).db, o)
  {
    match op {
      case ConfirmOrder(_) => ReservationEffects.ConfirmExact(d, o);
      case AllocateOrder(_) => ReservationEffects.AllocateExact(d, o);
      case ClaimWork(_) =>
      case ReleaseWork(_) =>
      case SetWork(_, stage, picks) => WorkSafety.SetWorkIsTheWorkers(d, actor, o, stage, picks);
    }
  }

  lemma ShipMoves(d: Db, actor: Id, op: Op, o: Id)
    requires StockInv(d) && Apply(d, actor, op).Done? && About(d, op) == Some(o) && o < |d.orders| && op.Ship?
    ensures OrderMoves(d, op, Apply(d, actor, op).db, o)
  {
    WorkSafety.ShipIsTheWorkers(d, actor, op.picks, op.today);
  }

  lemma ReviewMoves(d: Db, actor: Id, op: Op, o: Id)
    requires StockInv(d) && Apply(d, actor, op).Done? && About(d, op) == Some(o) && o < |d.orders|
    requires op.ReviewCancellation?
    ensures OrderMoves(d, op, Apply(d, actor, op).db, o)
  {
    OrderEffects.ReviewExact(d, op.request, op.approve);
    assert d.cancelRequests[op.request].status == Pending ==> d.orders[o].status == Confirmed;
  }

  lemma CancelOpMoves(d: Db, actor: Id, op: Op, o: Id)
    requires StockInv(d) && Apply(d, actor, op).Done? && About(d, op) == Some(o) && o < |d.orders|
    requires op.CancelOrder? || op.RequestCancellation?
    ensures OrderMoves(d, op, Apply(d, actor, op).db, o)
  {
    if op.CancelOrder? {
      OrderEffects.CancelExact(d, o);
    } else {
      OrderEffects.RequestCancellationExact(d, op.customer, o);
    }
  }

  lemma OrdersMove(d: Db, actor: Id, op: Op, o: Id)
    requires StockInv(d) && Apply(d, actor, op).Done? && o < |d.orders|
    ensures OrderMoves(d, op, Apply(d, actor, op).db, o)
  {
    if About(d, op) == Some(o) {
      if op.Ship? {
        ShipMoves(d, actor, op, o);
      } else if op.ReviewCancellation? {
        ReviewMoves(d, actor, op, o);
      } else if op.CancelOrder? || op.RequestCancellation? {
        CancelOpMoves(d, actor, op, o);
      } else {
        WorkOpMoves(d, actor, op, o);
      }
    } else if About(d, op).Some? {
      OrderOpTouches(d, actor, op);
    } else if op.FinalizeCount? {
      WorkSafety.FinalizeNoWork(d, op.count, op.result);
    } else {
      OtherOpTouchesNot(d, actor, op, o);
    }
  }

  /** A request is reviewed once, with the outcome of the review. */
  ghost predicate RequestMoves(d: Db, op: Op, d': Db, q: Id) {
    && q < |d.cancelRequests| <= |d'.cancelRequests|
    && (|| (d'.cancelRequests[q] == d.cancelRequests[q] && !(op.ReviewCancellation? && op.request == q))
        || (op == ReviewCancellation(q, true) && d.cancelRequests[q].status == Pending
            && d'.cancelRequests[q] == d.cancelRequests[q].(status := Approved))
        || (op == ReviewCancellation(q, false) && d.cancelRequests[q].status == Pending
            && d'.cancelRequests[q] == d.cancelRequests[q].(status := Rejected)))
  }

  /** A new request is the customer's own. */
  predicate RequestIsOwn(d: Db, op: Op, d': Db, q: Id) {
    && |d.cancelRequests| <= q < |d'.cancelRequests|
    && op.RequestCancellation? && op.order < |d.orders| && d.orders[op.order].customer == op.customer
    && d'.cancelRequests[q] == CancelRequest(op.order, Pending)
  }

  lemma RequestsMove(d: Db, actor: Id, op: Op, q: Id)
    requires StockInv(d) && Apply(d, actor, op).Done?
    requires q < |d.cancelRequests| || q < |Apply(d, actor, op).db.cancelRequests|
    ensures var d' := Apply(d, actor, op).db; RequestMoves(d, op, d', q) || RequestIsOwn(d, op, d', q)
  {
    if op.RequestCancellation? {
      OrderEffects.RequestCancellationExact(d, op.customer, op.order);
    } else if op.ReviewCancellation? {
      OrderEffects.ReviewExact(d, op.request, op.approve);
    } else if About(d, op).Some? {
      OrderOpTouches(d, actor, op);
    } else if op.FinalizeCount? {
      WorkSafety.FinalizeNoWork(d, op.count, op.result);
    } else if op.SubmitOrder? {
      OrderEffects.SubmitExact(d, op.customer, op.warehouse, op.partiesActive, op.items, op.createdAt, op.uuid);
    } else {
      OtherOpUntouched(d, actor, op);
    }
  }

  // ---------- counts ----------

  ghost predicate CountMoves(d: Db, op: Op, d': Db, c: Id) {
    && c < |d.counts| <= |d'.counts|
    && (|| d'.counts[c] == d.counts[c]
        || (d.counts[c].status == Counting && d'.counts[c].status == Abandoned && op == CancelCount(c))
        || (d.counts[c].status == Counting && d'.counts[c].status == Counted
            && op == FinalizeCount(c, d'.counts[c].result)))
  }

  lemma CountsMove(d: Db, actor: Id, op: Op, c: Id)
    requires StockInv(d) && Apply(d, actor, op).Done? && c < |Apply(d, actor, op).db.counts|
    ensures var d' := Apply(d, actor, op).db;
            || CountMoves(d, op, d', c)
            || (c >= |d.counts| && op == StartCount(d'.counts[c].sku) && d'.counts[c].status == Counting)
  {
    if op.StartCount? {
      CountEffects.StartExact(d, op.sku);
    } else if op.FinalizeCount? {
      CountEffects.FinalizeOutcome(d, op.count, op.result);
    } else if op.CancelCount? {
      CountEffects.CancelExact(d, op.count);
    } else {
      CountFreeze.CountsUnwritten(d, actor, op);
    }
  }

  // ---------- settlements and payments ----------

  ghost predicate SettlementMoves(d: Db, op: Op, d': Db, j: Id) {
    && j < |d.settlements| <= |d'.settlements|
    && (|| d'.settlements[j] == d.settlements[j]
        || (op == FinalizeSettlement(j) && d.settlements[j].status == Draft
            && d'.settlements[j] == d.settlements[j].(status := Finalized, due := d'.settlements[j].due)))
  }

  /** A new settlement is a draft, for the customer, month and due day of the command. */
  predicate IsDrafted(d: Db, op: Op, d': Db, j: Id) {
    && |d.settlements| <= j < |d'.settlements| && d'.settlements[j].status == Draft
    && op == DraftSettlement(d'.settlements[j].customer, d'.settlements[j].month, Some(d'.settlements[j].dueDay))
  }

  lemma SettlementsMove(d: Db, actor: Id, op: Op, j: Id)
    requires StockInv(d) && Apply(d, actor, op).Done? && j < |Apply(d, actor, op).db.settlements|
    ensures var d' := Apply(d, actor, op).db; SettlementMoves(d, op, d', j) || IsDrafted(d, op, d', j)
  {
    if IsOrderOp(op) || IsStockOp(op) || IsReturnOp(op) {
      SettlementHistory.OtherOpUnwritten(d, actor, op);
    } else if op.DraftSettlement? {
      PaymentEffects.DraftExact(d, op.customer, op.month, op.dueDay);
    } else if op.FinalizeSettlement? {
      PaymentEffects.FinalizeExact(d, op.settlement);
    }
  }

  ghost predicate PaymentMoves(d: Db, op: Op, d': Db, p: Id) {
    && p < |d.payments| <= |d'.payments|
    && (|| d'.payments[p] == d.payments[p]
        || (op == VoidPayment(p) && d.payments[p].status == Recorded
            && d'.payments[p] == d.payments[p].(status := Voided)))
  }

  /** A new payment has the customer and the amount of the command. */
  predicate IsPaid(d: Db, op: Op, d': Db, p: Id) {
    && |d.payments| <= p < |d'.payments| && d'.payments[p].status == Recorded
    && op == RecordPayment(d'.payments[p].customer, true, d'.payments[p].amount)
  }

  lemma PaymentsMove(d: Db, actor: Id, op: Op, p: Id)
    requires StockInv(d) && BooksInv(d) && Apply(d, actor, op).Done? && p < |Apply(d, actor, op).db.payments|
    ensures var d' := Apply(d, actor, op).db; PaymentMoves(d, op, d', p) || IsPaid(d, op, d', p)
  {
    if IsOrderOp(op) || IsStockOp(op) || IsReturnOp(op) {
      SettlementHistory.OtherOpUnwritten(d, actor, op);
    } else if op.RecordPayment? {
      PaymentEffects.PayExact(d, op.customer, op.customerKnown, op.amount);
    } else if op.VoidPayment? {
      PaymentEffects.VoidExact(d, op.payment);
    }
  }

  // ---------- every run ----------

  /** Some call of the run asked for it. */
  ghost predicate Called(calls: seq<Call>, op: Op) {
    exists n: nat :: n < |calls| && calls[n].op == op
  }

  lemma CalledLast(calls: seq<Call>)
    requires calls != []
    ensures Called(calls, calls[|calls| - 1].op)
    ensures forall op :: Called(calls[..|calls| - 1], op) ==> Called(calls, op)
  {
    forall op | Called(calls[..|calls| - 1], op) ensures Called(calls, op) {
      var n: nat :| n < |calls| - 1 && calls[..|calls| - 1][n].op == op;
      assert calls[n].op == op;
    }
  }

  /** A request to cancel the order was approved by a call. */
  ghost predicate CancelApproved(d: Db, calls: seq<Call>, o: Id) {
    exists q: Id :: q < |d.cancelRequests| && d.cancelRequests[q] == CancelRequest(o, Approved)
                    && Called(calls, ReviewCancellation(q, true))
  }

  /** The order was submitted by a call, for active parties, with its time and identifier. */
  ghost predicate IsSubmitted(order: Order, calls: seq<Call>) {
    exists items ::
      Called(calls, SubmitOrder(order.customer, order.warehouse, true, items, order.createdAt, order.uuid))
  }

  ghost predicate OrderAccounted(d: Db, calls: seq<Call>, o: Id)
    requires o < |d.orders|
  {
    && IsSubmitted(d.orders[o], calls)
    && (d.orders[o].status != Submitted ==> Called(calls, ConfirmOrder(o)))
    && (d.orders[o].status == Cancelled ==> Called(calls, CancelOrder(o)) || CancelApproved(d, calls, o))
  }

  ghost predicate RequestAccounted(d: Db, calls: seq<Call>, q: Id)
    requires q < |d.cancelRequests|
  {
    var r := d.cancelRequests[q];
    && r.order < |d.orders| && Called(calls, RequestCancellation(d.orders[r.order].customer, r.order))
    && (r.status == Approved ==> Called(calls, ReviewCancellation(q, true)))
    && (r.status == Rejected ==> Called(calls, ReviewCancellation(q, false)))
  }

  ghost predicate CountAccounted(d: Db, calls: seq<Call>, c: Id)
    requires c < |d.counts|
  {
    && Called(calls, StartCount(d.counts[c].sku))
    && (d.counts[c].status == Counted ==> Called(calls, FinalizeCount(c, d.counts[c].result)))
    && (d.counts[c].status == Abandoned ==> Called(calls, CancelCount(c)))
  }

  ghost predicate SettlementAccounted(d: Db, calls: seq<Call>, j: Id)
    requires j < |d.settlements|
  {
    var h := d.settlements[j];
    && Called(calls, DraftSettlement(h.customer, h.month, Some(h.dueDay)))
    && (h.status == Finalized ==> Called(calls, FinalizeSettlement(j)))
  }

  ghost predicate PaymentAccounted(d: Db, calls: seq<Call>, p: Id)
    requires p < |d.payments|
  {
    && Called(calls, RecordPayment(d.payments[p].customer, true, d.payments[p].amount))
    && (d.payments[p].status == Voided ==> Called(calls, VoidPayment(p)))
  }

  /** Every row has the calls that brought it where it is. */
  ghost predicate Accounted(d: Db, calls: seq<Call>) {
    && (forall o: Id | o < |d.orders| :: OrderAccounted(d, calls, o))
    && (forall q: Id | q < |d.cancelRequests| :: RequestAccounted(d, calls, q))
    && (forall c: Id | c < |d.counts| :: CountAccounted(d, calls, c))
    && (forall j: Id | j < |d.settlements| :: SettlementAccounted(d, calls, j))
    && (forall p: Id | p < |d.payments| :: PaymentAccounted(d, calls, p))
  }

  /** The later run has all calls of the earlier one. */
  ghost predicate GoesOn(calls: seq<Call>, longer: seq<Call>) {
    forall op :: Called(calls, op) ==> Called(longer, op)
  }

  lemma StaysApproved(d: Db, d': Db, op: Op, calls: seq<Call>, longer: seq<Call>, o: Id)
    requires CancelApproved(d, calls, o) && GoesOn(calls, longer)
    requires forall q: Id | q < |d.cancelRequests| :: RequestMoves(d, op, d', q)
    ensures CancelApproved(d', longer, o)
  {
    var q: Id :| q < |d.cancelRequests| && d.cancelRequests[q] == CancelRequest(o, Approved)
                 && Called(calls, ReviewCancellation(q, true));
    assert RequestMoves(d, op, d', q);
  }

  lemma BecomesApproved(d: Db, d': Db, op: Op, longer: seq<Call>, o: Id)
    requires Approves(d, op, o) && Called(longer, op)
    requires forall q: Id | q < |d.cancelRequests| :: RequestMoves(d, op, d', q)
    ensures CancelApproved(d', longer, o)
  {
    assert RequestMoves(d, op, d', op.request);
    assert op == ReviewCancellation(op.request, true);
  }

  lemma OrderStaysAccounted(d: Db, d': Db, op: Op, calls: seq<Call>, longer: seq<Call>, o: Id)
    requires o < |d.orders| <= |d'.orders| && OrderAccounted(d, calls, o) && OrderMoves(d, op, d', o)
    requires d'.orders[o] == d.orders[o].(status := d'.orders[o].status, assignee := d'.orders[o].assignee)
    requires forall q: Id | q < |d.cancelRequests| :: RequestMoves(d, op, d', q)
    requires GoesOn(calls, longer) && Called(longer, op)
    ensures OrderAccounted(d', longer, o)
  {
    var items :| Called(calls, SubmitOrder(d.orders[o].customer, d.orders[o].warehouse, true, items,
                                           d.orders[o].createdAt, d.orders[o].uuid));
    assert Called(longer, SubmitOrder(d'.orders[o].customer, d'.orders[o].warehouse, true, items,
                                      d'.orders[o].createdAt, d'.orders[o].uuid));
    if Approves(d, op, o) {
      BecomesApproved(d, d', op, longer, o);
    } else if CancelApproved(d, calls, o) {
      StaysApproved(d, d', op, calls, longer, o);
    }
  }

  lemma RequestStaysAccounted(d: Db, d': Db, op: Op, calls: seq<Call>, longer: seq<Call>, q: Id)
    requires OrderTerms.TermsKept(d, d') && q < |d'.cancelRequests|
    requires if q < |d.cancelRequests| then RequestAccounted(d, calls, q) && RequestMoves(d, op, d', q)
             else RequestIsOwn(d, op, d', q)
    requires GoesOn(calls, longer) && Called(longer, op)
    ensures RequestAccounted(d', longer, q)
  {
    var o := d'.cancelRequests[q].order;
    assert o < |d.orders| && d'.orders[o].customer == d.orders[o].customer;
    if q >= |d.cancelRequests| {
      assert op == RequestCancellation(d.orders[o].customer, o);
    }
  }

  lemma ApplyMovesRequests(d: Db, actor: Id, op: Op)
    requires StockInv(d) && Apply(d, actor, op).Done?
    ensures forall q: Id | q < |d.cancelRequests| :: RequestMoves(d, op, Apply(d, actor, op).db, q)
  {
    forall q: Id | q < |d.cancelRequests| ensures RequestMoves(d, op, Apply(d, actor, op).db, q) {
      RequestsMove(d, actor, op, q);
    }
  }

  lemma OrdersAccounted(d: Db, actor: Id, op: Op, calls: seq<Call>, longer: seq<Call>, o: Id)
    requires StockInv(d) && Apply(d, actor, op).Done? && o < |Apply(d, actor, op).db.orders|
    requires Accounted(d, calls) && GoesOn(calls, longer) && Called(longer, op)
    ensures OrderAccounted(Apply(d, actor, op).db, longer, o)
  {
    if o < |d.orders| {
      OrderTerms.ApplyKeepsTerms(d, actor, op);
      OrdersMove(d, actor, op, o);
      ApplyMovesRequests(d, actor, op);
      assert OrderAccounted(d, calls, o);
      OrderStaysAccounted(d, Apply(d, actor, op).db, op, calls, longer, o);
    } else {
      WorkSafety.NewIsUnassigned(d, actor, op, o);
      assert Called(longer, SubmitOrder(op.customer, op.warehouse, true, op.items, op.createdAt, op.uuid));
    }
  }

  lemma RequestsAccounted(d: Db, actor: Id, op: Op, calls: seq<Call>, longer: seq<Call>, q: Id)
    requires StockInv(d) && Apply(d, actor, op).Done? && q < |Apply(d, actor, op).db.cancelRequests|
    requires Accounted(d, calls) && GoesOn(calls, longer) && Called(longer, op)
    ensures RequestAccounted(Apply(d, actor, op).db, longer, q)
  {
    OrderTerms.ApplyKeepsTerms(d, actor, op);
    RequestsMove(d, actor, op, q);
    assert q < |d.cancelRequests| ==> RequestAccounted(d, calls, q);
    RequestStaysAccounted(d, Apply(d, actor, op).db, op, calls, longer, q);
  }

  lemma CountsAccounted(d: Db, actor: Id, op: Op, calls: seq<Call>, longer: seq<Call>, c: Id)
    requires StockInv(d) && Apply(d, actor, op).Done? && c < |Apply(d, actor, op).db.counts|
    requires Accounted(d, calls) && GoesOn(calls, longer) && Called(longer, op)
    ensures CountAccounted(Apply(d, actor, op).db, longer, c)
  {
    CountsMove(d, actor, op, c);
    assert c < |d.counts| ==> CountAccounted(d, calls, c);
  }

  lemma SettlementsAccounted(d: Db, actor: Id, op: Op, calls: seq<Call>, longer: seq<Call>, j: Id)
    requires StockInv(d) && Apply(d, actor, op).Done? && j < |Apply(d, actor, op).db.settlements|
    requires Accounted(d, calls) && GoesOn(calls, longer) && Called(longer, op)
    ensures SettlementAccounted(Apply(d, actor, op).db, longer, j)
  {
    SettlementsMove(d, actor, op, j);
    assert j < |d.settlements| ==> SettlementAccounted(d, calls, j);
  }

  lemma PaymentsAccounted(d: Db, actor: Id, op: Op, calls: seq<Call>, longer: seq<Call>, p: Id)
    requires StockInv(d) && BooksInv(d) && Apply(d, actor, op).Done? && p < |Apply(d, actor, op).db.payments|
    requires Accounted(d, calls) && GoesOn(calls, longer) && Called(longer, op)
    ensures PaymentAccounted(Apply(d, actor, op).db, longer, p)
  {
    PaymentsMove(d, actor, op, p);
    assert p < |d.payments| ==> PaymentAccounted(d, calls, p);
  }

  lemma ApplyAccounts(d: Db, actor: Id, op: Op, calls: seq<Call>, longer: seq<Call>)
    requires StockInv(d) && BooksInv(d) && Apply(d, actor, op).Done?
    requires Accounted(d, calls) && GoesOn(calls, longer) && Called(longer, op)
    ensures Accounted(Apply(d, actor, op).db, longer)
  {
    var d' := Apply(d, actor, op).db;
    forall o: Id | o < |d'.orders| ensures OrderAccounted(d', longer, o) {
      OrdersAccounted(d, actor, op, calls, longer, o);
    }
    forall q: Id | q < |d'.cancelRequests| ensures RequestAccounted(d', longer, q) {
      RequestsAccounted(d, actor, op, calls, longer, q);
    }
    forall c: Id | c < |d'.counts| ensures CountAccounted(d', longer, c) {
      CountsAccounted(d, actor, op, calls, longer, c);
    }
    forall j: Id | j < |d'.settlements| ensures SettlementAccounted(d', longer, j) {
      SettlementsAccounted(d, actor, op, calls, longer, j);
    }
    forall p: Id | p < |d'.payments| ensures PaymentAccounted(d', longer, p) {
      PaymentsAccounted(d, actor, op, calls, longer, p);
    }
  }

  lemma StaysAccounted(d: Db, calls: seq<Call>, longer: seq<Call>)
    requires Accounted(d, calls) && GoesOn(calls, longer)
    ensures Accounted(d, longer)
  {
    forall o: Id | o < |d.orders| ensures OrderAccounted(d, longer, o) {
      assert OrderAccounted(d, calls, o);
      var items :| Called(calls, SubmitOrder(d.orders[o].customer, d.orders[o].warehouse, true, items,
                                             d.orders[o].createdAt, d.orders[o].uuid));
      assert IsSubmitted(d.orders[o], longer);
      if CancelApproved(d, calls, o) {
        var q: Id :| q < |d.cancelRequests| && d.cancelRequests[q] == CancelRequest(o, Approved)
                     && Called(calls, ReviewCancellation(q, true));
        assert CancelApproved(d, longer, o);
      }
    }
    forall q: Id | q < |d.cancelRequests| ensures RequestAccounted(d, longer, q) {
      assert RequestAccounted(d, calls, q);
    }
    forall c: Id | c < |d.counts| ensures CountAccounted(d, longer, c) {
      assert CountAccounted(d, calls, c);
    }
    forall j: Id | j < |d.settlements| ensures SettlementAccounted(d, longer, j) {
      assert SettlementAccounted(d, calls, j);
    }
    forall p: Id | p < |d.payments| ensures PaymentAccounted(d, longer, p) {
      assert PaymentAccounted(d, calls, p);
    }
  }

  lemma NextAccounts(s: State, calls: seq<Call>)
    requires calls != [] && StockInv(s.db) && BooksInv(s.db) && Accounted(s.db, calls[..|calls| - 1])
    ensures Accounted(Next(s, calls[|calls| - 1]).db, calls)
  {
    var init, last := calls[..|calls| - 1], calls[|calls| - 1];
    CalledLast(calls);
    if Next(s, last).db == s.db {
      StaysAccounted(s.db, init, calls);
    } else {
      ApplyAccounts(s.db, last.actor, last.op, init, calls);
    }
  }

  /** After any run, every order was submitted, and confirmed and cancelled if it is, by calls that say so; so for every
      cancellation request, count, settlement and payment, with the customers, amounts and results of those calls. */
  lemma {:induction false} EveryStateHasItsCall(calls: seq<Call>)
    ensures Accounted(Run(START, calls).db, calls)
  {
    if calls != [] {
      EveryStateHasItsCall(calls[..|calls| - 1]);
      ReachableInv(calls[..|calls| - 1]);
      NextAccounts(Run(START, calls[..|calls| - 1]), calls);
    }
  }
}
