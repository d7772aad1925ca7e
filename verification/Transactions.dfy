/** The command handler: input check, stored result, transaction, rollback on any rejection, stored reply. */
module Transactions {
  import opened Wrappers
  import opened Tables
  import opened Store
  import opened Commands
  import opened Invariant
  import OrderCommands
  import StockCountCommands
  import CatalogCommands
  import ReturnCommands
  import ReceivableCommands

  method PerformOrder(db: Database, actor: Id, op: Op) returns (answer: Result<Reply, Error>)
    requires IsOrderOp(op)
    modifies db
    ensures Performs(Apply(old(db.tables), actor, op), db.tables, answer)
  {
    match op
    case SubmitOrder(customer, warehouse, partiesActive, items, createdAt, uuid) =>
      answer := OrderCommands.Submit(db, customer, warehouse, partiesActive, items, createdAt, uuid);
    case ConfirmOrder(order) => answer := OrderCommands.Confirm(db, order);
    case AllocateOrder(order) => answer := OrderCommands.Allocate(db, order);
    case ClaimWork(order) => answer := OrderCommands.Claim(db, actor, order);
    case ReleaseWork(order) => answer := OrderCommands.ReleaseWork(db, actor, order);
    case SetWork(order, stage, picks) => answer := OrderCommands.SetWork(db, actor, order, stage, picks);
    case Ship(picks, today) => answer := OrderCommands.Ship(db, actor, picks, today);
    case CancelOrder(order) => answer := OrderCommands.Cancel(db, order);
    case RequestCancellation(customer, order) => answer := OrderCommands.RequestCancellation(db, customer, order);
    case ReviewCancellation(request, approve) => answer := OrderCommands.Review(db, request, approve);
  }

  method PerformStock(db: Database, actor: Id, op: Op) returns (answer: Result<Reply, Error>)
    requires IsStockOp(op)
    modifies db
    ensures Performs(Apply(old(db.tables), actor, op), db.tables, answer)
  {
    match op
    case StartCount(sku) => answer := StockCountCommands.Start(db, sku);
    case FinalizeCount(count, result) => answer := StockCountCommands.Finalize(db, count, result);
    case CancelCount(count) => answer := StockCountCommands.Cancel(db, count);
    case AdjustStock(sku, delta) => answer := CatalogCommands.Adjust(db, sku, delta);
    case ReceiveStock(partiesKnown, warehouse, receipt) =>
      answer := CatalogCommands.Receive(db, partiesKnown, warehouse, receipt);
  }

  method PerformReturn(db: Database, actor: Id, op: Op) returns (answer: Result<Reply, Error>)
    requires IsReturnOp(op)
    modifies db
    ensures Performs(Apply(old(db.tables), actor, op), db.tables, answer)
  {
    match op
    case RequestReturn(customer, rows) => answer := ReturnCommands.Request(db, customer, rows);
    case InspectReturn(returnLine, received, normal, defective) =>
      answer := ReturnCommands.Inspect(db, returnLine, received, normal, defective);
    case CreditReturn(inspection, quantity, today) =>
      answer := ReturnCommands.CreditReturn(db, inspection, quantity, today);
    case DisposeDefect(inspection, quantity, fate, supplierActive) =>
      answer := ReturnCommands.Dispose(db, inspection, quantity, fate, supplierActive);
    case ResolveDefect(disposition, quantity, fate, supplierActive) =>
      answer := ReturnCommands.Resolve(db, disposition, quantity, fate, supplierActive);
  }

  method PerformMoney(db: Database, actor: Id, op: Op) returns (answer: Result<Reply, Error>)
    requires !IsOrderOp(op) && !IsStockOp(op) && !IsReturnOp(op)
    modifies db
    ensures Performs(Apply(old(db.tables), actor, op), db.tables, answer)
  {
    match op
    case DraftSettlement(customer, month, dueDay) =>
      answer := ReceivableCommands.DraftSettlement(db, customer, month, dueDay);
    case FinalizeSettlement(settlement) => answer := ReceivableCommands.FinalizeSettlement(db, settlement);
    case RecordPayment(customer, customerKnown, amount) =>
      answer := ReceivableCommands.Pay(db, customer, customerKnown, amount);
    case AllocatePayment(payment, settlement, amount) =>
      answer := ReceivableCommands.AllocatePayment(db, payment, settlement, amount);
    case RecordRefund(source, amount, date, reference) =>
      answer := ReceivableCommands.RecordRefund(db, source, amount, date, reference);
    case VoidPayment(payment) => answer := ReceivableCommands.VoidPayment(db, payment);
  }

  method Perform(db: Database, actor: Id, op: Op) returns (answer: Result<Reply, Error>)
    modifies db
    ensures Performs(Apply(old(db.tables), actor, op), db.tables, answer)
  {
    if IsOrderOp(op) {
      answer := PerformOrder(db, actor, op);
    } else if IsStockOp(op) {
      answer := PerformStock(db, actor, op);
    } else if IsReturnOp(op) {
      answer := PerformReturn(db, actor, op);
    } else {
      answer := PerformMoney(db, actor, op);
    }
  }

  /** The running system: its database and the results it stored. */
  class Server {
    const db: Database
    var results: map<Key, Reply>

    constructor ()
      ensures fresh(this) && fresh(db) && Current() == START
    {
      db := new Database();
      results := map[];
    }

    function Current(): State
      reads this, db
    {
      State(db.tables, results)
    }

    /** Handling a call does what the specification of one step says, and never breaks the invariant; a rejected call
        leaves no trace of what it had written. */
    method Handle(call: Call) returns (answer: Result<Reply, Error>)
      modifies this, db
      ensures Current() == Next(old(Current()), call)
      ensures answer == Answer(old(Current()), call)
      ensures Inv(old(Current()).db) ==> Inv(Current().db)
      ensures answer.Failure? ==> Current() == old(Current())
    {
      ghost var before := Current();
      if Refused(call.op) { return Failure(BadRequest); }
      var key := KeyOf(call);
      if key.Some? && key.value in results { return Success(results[key.value]); }
      var begin := db.tables;
      answer := Perform(db, call.actor, call.op);
      if answer.Failure? {
        db.tables := begin;
      } else if key.Some? {
        results := results[key.value := answer.value];
      }
      HandledKeeps(before, call);
    }
  }

  lemma HandledKeeps(s: State, call: Call)
    ensures Inv(s.db) ==> Inv(Next(s, call).db)
  {
    if Inv(s.db) {
      NextKeeps(s, call);
    }
  }
}
