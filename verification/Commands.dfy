/** One command at a time: input checks, the stored-result lookup, the transaction, and runs of commands. */
module Commands {
  import opened Wrappers
  import opened Tables
  import OrderService
  import StockCountService
  import CatalogService
  import ReturnService
  import ReceivableService

  /** What a caller can ask for. Clocks, master data and generated order identifiers arrive as parameters. */
  datatype Op =
    | SubmitOrder(customer: Id, warehouse: Id, partiesActive: bool, items: seq<Item>, createdAt: int, uuid: int)
    | ConfirmOrder(order: Id)
    | AllocateOrder(order: Id)
    | ClaimWork(order: Id)
    | ReleaseWork(order: Id)
    | SetWork(order: Id, stage: Stage, picks: seq<Pick>)
    | Ship(picks: seq<Pick>, today: Date)
    | CancelOrder(order: Id)
    | RequestCancellation(customer: Id, order: Id)
    | ReviewCancellation(request: Id, approve: bool)
    | StartCount(sku: Sku)
    | FinalizeCount(count: Id, result: int)
    | CancelCount(count: Id)
    | AdjustStock(sku: Sku, delta: int)
    | ReceiveStock(partiesKnown: bool, warehouse: Id, receipt: seq<ReceiptRow>)
    | RequestReturn(customer: Id, rows: seq<ReturnRow>)
    | InspectReturn(returnLine: Id, received: int, normal: int, defective: int)
    | CreditReturn(inspection: Id, quantity: int, today: Date)
    | DisposeDefect(inspection: Id, quantity: int, fate: Fate, supplierActive: bool)
    | ResolveDefect(disposition: Id, quantity: int, fate: Fate, supplierActive: bool)
    | DraftSettlement(customer: Id, month: int, dueDay: Option<DueDay>)
    | FinalizeSettlement(settlement: Id)
    | RecordPayment(customer: Id, customerKnown: bool, amount: int)
    | AllocatePayment(payment: Id, settlement: Id, amount: int)
    | RecordRefund(source: RefundSource, amount: int, date: Date, reference: string)
    | VoidPayment(payment: Id)

  datatype Call = Call(actor: Id, request: Id, op: Op)

  datatype Key = Key(actor: Id, commandType: string, request: Id)

  /** The database with the stored results of the commands it went through. */
  datatype State = State(db: Db, results: map<Key, Reply>)

  const START := State(EMPTY, map[])

  /** The name under which a command's result is stored; drafting and finalizing a settlement store none. */
  function CommandType(op: Op): Option<string> {
    match op
    case SubmitOrder(_, _, _, _, _, _) => Some("order.submit")
    case ConfirmOrder(_) => Some("order.confirm")
    case AllocateOrder(_) => Some("order.allocate")
    case ClaimWork(_) => Some("shipment.work.claim")
    case ReleaseWork(_) => Some("shipment.work.release")
    case SetWork(_, stage, _) => Some(if stage == PickStage then "shipment.work.picked" else "shipment.work.inspected")
    case Ship(_, _) => Some("shipment.create")
    case CancelOrder(_) => Some("order.cancel")
    case RequestCancellation(_, _) => Some("order.cancellation.request")
    case ReviewCancellation(_, approve) =>
      Some(if approve then "order.cancellation.approved" else "order.cancellation.rejected")
    case StartCount(_) => Some("stock-count.start")
    case FinalizeCount(_, _) => Some("stock-count.finalize")
    case CancelCount(_) => Some("stock-count.cancel")
    case AdjustStock(_, _) => Some("inventory.adjust")
    case ReceiveStock(_, _, _) => Some("receipt.confirm")
    case RequestReturn(_, _) => Some("return.request")
    case InspectReturn(_, _, _, _) => Some("return.inspect")
    case CreditReturn(_, _, _) => Some("return.credit")
    case DisposeDefect(_, _, _, _) => Some("return.defect-disposition")
    case ResolveDefect(_, _, _, _) => Some("return.defect-resolution")
    case DraftSettlement(_, _, _) => None
    case FinalizeSettlement(_) => None
    case RecordPayment(_, _, _) => Some("payment.record")
    case AllocatePayment(_, _, _) => Some("payment.allocate")
    case RecordRefund(_, _, _, _) => Some("refund.record")
    case VoidPayment(_) => Some("payment.void")
  }

  /** Inputs that are refused before the stored result is even looked up. */
  predicate Refused(op: Op) {
    match op
    case SubmitOrder(_, _, _, items, _, _) => !OrderService.ItemsValid(items)
    case SetWork(_, _, picks) => !OrderService.PicksValid(picks, 0)
    case Ship(picks, _) => !OrderService.PicksValid(picks, 1)
    case FinalizeCount(_, result) => result < 0
    case AdjustStock(_, delta) => delta == 0
    case ReceiveStock(_, _, receipt) => receipt == []
    case RequestReturn(_, rows) => !ReturnService.RowsValid(rows)
    case InspectReturn(_, received, normal, defective) => !ReturnService.InspectionValid(received, normal, defective)
    case CreditReturn(_, quantity, _) => quantity < 1
    case DisposeDefect(_, quantity, _, _) => quantity < 1
    case ResolveDefect(_, quantity, fate, _) => quantity < 1 || fate == Quarantine
    case RecordPayment(_, _, amount) => amount < 1
    case AllocatePayment(_, _, amount) => amount < 1
    case RecordRefund(_, amount, _, _) => amount < 1
    case _ => false
  }

  /** The command's transaction. */
  function Apply(d: Db, actor: Id, op: Op): Outcome {
    match op
    case SubmitOrder(customer, warehouse, partiesActive, items, createdAt, uuid) =>
      OrderService.Submit(d, customer, warehouse, partiesActive, items, createdAt, uuid)
    case ConfirmOrder(order) => OrderService.Confirm(d, order)
    case AllocateOrder(order) => OrderService.Allocate(d, order)
    case ClaimWork(order) => OrderService.Claim(d, actor, order)
    case ReleaseWork(order) => OrderService.ReleaseWork(d, actor, order)
    case SetWork(order, stage, picks) => OrderService.SetWork(d, actor, order, stage, picks)
    case Ship(picks, today) => OrderService.Ship(d, actor, picks, today)
    case CancelOrder(order) => OrderService.Cancel(d, order)
    case RequestCancellation(customer, order) => OrderService.RequestCancellation(d, customer, order)
    case ReviewCancellation(request, approve) => OrderService.Review(d, request, approve)
    case StartCount(sku) => StockCountService.Start(d, sku)
    case FinalizeCount(count, result) => StockCountService.Finalize(d, count, result)
    case CancelCount(count) => StockCountService.Cancel(d, count)
    case AdjustStock(sku, delta) => CatalogService.Adjust(d, sku, delta)
    case ReceiveStock(partiesKnown, warehouse, receipt) => CatalogService.Receive(d, partiesKnown, warehouse, receipt)
    case RequestReturn(customer, rows) => ReturnService.Request(d, customer, rows)
    case InspectReturn(returnLine, received, normal, defective) =>
      ReturnService.Inspect(d, returnLine, received, normal, defective)
    case CreditReturn(inspection, quantity, today) => ReturnService.CreditReturn(d, inspection, quantity, today)
    case DisposeDefect(inspection, quantity, fate, supplierActive) =>
      ReturnService.Dispose(d, inspection, quantity, fate, supplierActive)
    case ResolveDefect(disposition, quantity, fate, supplierActive) =>
      ReturnService.Resolve(d, disposition, quantity, fate, supplierActive)
    case DraftSettlement(customer, month, dueDay) => ReceivableService.DraftSettlement(d, customer, month, dueDay)
    case FinalizeSettlement(settlement) => ReceivableService.FinalizeSettlement(d, settlement)
    case RecordPayment(customer, customerKnown, amount) => ReceivableService.Pay(d, customer, customerKnown, amount)
    case AllocatePayment(payment, settlement, amount) =>
      ReceivableService.AllocatePayment(d, payment, settlement, amount)
    case RecordRefund(source, amount, date, reference) =>
      ReceivableService.RecordRefund(d, source, amount, date, reference)
    case VoidPayment(payment) => ReceivableService.VoidPayment(d, payment)
  }

  function KeyOf(call: Call): Option<Key> {
    match CommandType(call.op)
    case None => None
    case Some(commandType) => Some(Key(call.actor, commandType, call.request))
  }

  predicate Stored(s: State, call: Call) {
    KeyOf(call).Some? && KeyOf(call).value in s.results
  }

  /** What the caller is answered. */
  function Answer(s: State, call: Call): Result<Reply, Error> {
    if Refused(call.op) then Failure(BadRequest)
    else if Stored(s, call) then Success(s.results[KeyOf(call).value])
    else
      match Apply(s.db, call.actor, call.op)
      case Failed(error) => Failure(error)
      case Done(_, reply) => Success(reply)
  }

  /** The state the command leaves: rolled back, replayed, or committed together with its stored result. */
  function Next(s: State, call: Call): State {
    if Refused(call.op) || Stored(s, call) then s
    else
      match Apply(s.db, call.actor, call.op)
      case Failed(_) => s
      case Done(db, reply) =>
        State(db, if KeyOf(call).Some? then s.results[KeyOf(call).value := reply] else s.results)
  }

  /** The state after a run of commands. */
  function Run(s: State, calls: seq<Call>): State {
    if calls == [] then s
    else Next(Run(s, calls[..|calls| - 1]), calls[|calls| - 1])
  }

  lemma {:induction false} RunConcat(s: State, first: seq<Call>, then_: seq<Call>)
    ensures Run(s, first + then_) == Run(Run(s, first), then_)
  {
    if then_ == [] {
      assert first + then_ == first;
    } else {
      var init := then_[..|then_| - 1];
      RunConcat(s, first, init);
      assert (first + then_)[..|first + then_| - 1] == first + init;
    }
  }
}
