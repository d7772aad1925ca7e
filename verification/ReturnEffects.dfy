/** Returns, credits and payments as they show in the totals: what each command adds to which account, and to no
    other. */
module ReturnEffects {
  import opened Wrappers
  import opened Tables
  import opened Sums
  import opened Totals
  import opened SalesInvariant
  import ReturnService
  import ReceivableService
  import Taxes

  // ---------- asking ----------

  function AskedFor(s: Id): ReturnRow -> int {
    (row: ReturnRow) => if row.shipmentLine == s then row.quantity else 0
  }

  /** The row asks for at least one unit of the shipment, which went to the customer, and for no more than what nobody
      asked back yet. */
  predicate MayAsk(d: Db, customer: Id, shipment: Id, row: ReturnRow) {
    && row.quantity >= 1
    && row.shipmentLine < |d.shipmentLines| && d.shipmentLines[row.shipmentLine].line < |d.lines|
    && d.shipmentLines[row.shipmentLine].shipment == shipment
    && shipment < |d.shipments| && d.shipments[shipment].order < |d.orders|
    && d.orders[d.shipments[shipment].order].customer == customer
    && Sum(d.returnLines, RequestedOn(row.shipmentLine)) + row.quantity <= d.shipmentLines[row.shipmentLine].quantity
  }

  ghost predicate AllMayAsk(d: Db, customer: Id, shipment: Id, rows: seq<ReturnRow>) {
    && rows != []
    && (forall n: Id | n < |rows| :: MayAsk(d, customer, shipment, rows[n]))
    && (forall m: Id, n: Id | m < n < |rows| :: rows[m].shipmentLine != rows[n].shipmentLine)
  }

  /** A return is requested exactly when all its rows may be asked for, from one shipment. */
  lemma RequestSucceeds(d: Db, customer: Id, rows: seq<ReturnRow>)
    ensures ReturnService.Request(d, customer, rows).Done? <==>
              exists shipment :: AllMayAsk(d, customer, shipment, rows)
  {
    if ReturnService.Request(d, customer, rows).Done? {
      assert AllMayAsk(d, customer, d.shipmentLines[rows[0].shipmentLine].shipment, rows);
    }
    if shipment :| AllMayAsk(d, customer, shipment, rows) {
      forall n: Id | n < |rows| ensures MayAsk(d, customer, shipment, rows[n]) {
      }
      assert MayAsk(d, customer, shipment, rows[0]);
    }
  }

  lemma RequestedRow(d: Db, customer: Id, rows: seq<ReturnRow>, n: Id)
    requires ReturnService.Request(d, customer, rows).Done? && n < |rows|
    ensures rows[n].shipmentLine < |d.shipmentLines| && d.shipmentLines[rows[n].shipmentLine].line < |d.lines|
    ensures var lines' := ReturnService.Request(d, customer, rows).db.returnLines;
            && |lines'| == |d.returnLines| + |rows| && lines'[..|d.returnLines|] == d.returnLines
            && lines'[|d.returnLines| + n] ==
                 ReturnLine(|d.returnRequests|, rows[n].shipmentLine,
                            d.lines[d.shipmentLines[rows[n].shipmentLine].line].sku, rows[n].quantity, 0, 0, 0)
  {
  }

  /** The request and its lines are written as they were asked for, with nothing received yet. */
  lemma RequestWritten(d: Db, customer: Id, rows: seq<ReturnRow>, shipment: Id)
    requires AllMayAsk(d, customer, shipment, rows)
    ensures var out := ReturnService.Request(d, customer, rows);
            && out.Done?
            && out.db == d.(returnRequests := d.returnRequests + [Return(customer, shipment, Requested)],
                            returnLines := out.db.returnLines)
            && out.reply == ReturnRequested(|d.returnRequests|)
            && |out.db.returnLines| == |d.returnLines| + |rows|
            && out.db.returnLines[..|d.returnLines|] == d.returnLines
            && forall n: Id | n < |rows| && MayAsk(d, customer, shipment, rows[n]) ::
                 out.db.returnLines[|d.returnLines| + n] ==
                   ReturnLine(|d.returnRequests|, rows[n].shipmentLine,
                              d.lines[d.shipmentLines[rows[n].shipmentLine].line].sku, rows[n].quantity, 0, 0, 0)
  {
    RequestSucceeds(d, customer, rows);
    assert MayAsk(d, customer, shipment, rows[0]);
    forall n: Id | n < |rows| && MayAsk(d, customer, shipment, rows[n])
      ensures ReturnService.Request(d, customer, rows).db.returnLines[|d.returnLines| + n] ==
                ReturnLine(|d.returnRequests|, rows[n].shipmentLine,
                           d.lines[d.shipmentLines[rows[n].shipmentLine].line].sku, rows[n].quantity, 0, 0, 0)
    {
      RequestedRow(d, customer, rows, n);
    }
  }

  /** A return request asks for exactly its rows. */
  lemma RequestExact(d: Db, customer: Id, rows: seq<ReturnRow>, s: Id)
    requires ReturnService.Request(d, customer, rows).Done?
    ensures Sum(ReturnService.Request(d, customer, rows).db.returnLines, RequestedOn(s)) ==
              Sum(d.returnLines, RequestedOn(s)) + Sum(rows, AskedFor(s))
  {
    var lines' := ReturnService.Request(d, customer, rows).db.returnLines;
    forall n: Id | n < |rows|
      ensures |lines'| == |d.returnLines| + |rows| && lines'[..|d.returnLines|] == d.returnLines
      ensures RequestedOn(s)(lines'[|d.returnLines| + n]) == AskedFor(s)(rows[n])
    {
      RequestedRow(d, customer, rows, n);
    }
    RowsAdd(d.returnLines, lines', rows, s);
  }

  lemma RowsAdd(lines: seq<ReturnLine>, lines': seq<ReturnLine>, rows: seq<ReturnRow>, s: Id)
    requires rows != [] && |lines'| == |lines| + |rows| && lines'[..|lines|] == lines
    requires forall n: Id | n < |rows| :: RequestedOn(s)(lines'[|lines| + n]) == AskedFor(s)(rows[n])
    ensures Sum(lines', RequestedOn(s)) == Sum(lines, RequestedOn(s)) + Sum(rows, AskedFor(s))
  {
    var added := lines'[|lines|..];
    assert lines' == lines + added;
    SumConcat(lines, added, RequestedOn(s));
    SumEqual(added, RequestedOn(s), rows, AskedFor(s));
  }

  // ---------- inspecting ----------

  /** An inspection is booked exactly when it adds up, does not exceed what is still to come, and puts nothing on the
      shelf of a SKU under count; then the good units, and they alone, are back in stock, and all of them are counted
      as received. */
  lemma InspectExact(d: Db, r: Id, received: int, normal: int, defective: int, k: Sku, s: Id)
    requires SalesInv(d)
    ensures var out := ReturnService.Inspect(d, r, received, normal, defective);
            && (out.Done? <==>
                  && received >= 1 && normal >= 0 && defective >= 0 && normal + defective == received
                  && r < |d.returnLines| && received <= d.returnLines[r].requested - d.returnLines[r].received
                  && (normal == 0 || !UnderCount(d.counts, d.returnLines[r].sku)))
            && (out.Done? ==>
                  && BalanceOf(out.db.balances, k) ==
                       Balance(BalanceOf(d.balances, k).onHand + (if k == d.returnLines[r].sku then normal else 0),
                               BalanceOf(d.balances, k).reserved)
                  && Sum(out.db.inspections, InspectedOn(s)) ==
                       Sum(d.inspections, InspectedOn(s)) + (if s == d.returnLines[r].shipmentLine then received else 0)
                  && Sum(out.db.inspections, DefectiveFor(r)) == Sum(d.inspections, DefectiveFor(r)) + defective)
  {
    if r < |d.returnLines| {
      assert ReturnLineOk(d, r);
      var added := Inspection(r, d.returnLines[r].shipmentLine, received, normal, defective, None);
      SumAppend(d.inspections, added, InspectedOn(s));
      SumAppend(d.inspections, added, DefectiveFor(r));
    }
  }

  /** Every line of the return has come back in full. */
  ghost predicate AllBack(lines: seq<ReturnLine>, ret: Id) {
    forall i: Id | i < |lines| && lines[i].parent == ret :: lines[i].received == lines[i].requested
  }

  /** The inspection and the line's quantities are written as they were reported; the return is inspected once all its
      lines have come back in full, and until then it is being inspected. */
  lemma InspectWritten(d: Db, r: Id, received: int, normal: int, defective: int)
    requires ReturnService.Inspect(d, r, received, normal, defective).Done?
    ensures r < |d.returnLines| && d.returnLines[r].parent < |d.returnRequests|
    ensures var out, l := ReturnService.Inspect(d, r, received, normal, defective), d.returnLines[r];
            var status := if AllBack(out.db.returnLines, l.parent) then Inspected else Inspecting;
            && out.db.inspections ==
                 d.inspections + [Inspection(r, l.shipmentLine, received, normal, defective, None)]
            && out.db.returnLines ==
                 d.returnLines[r := ReturnLine(l.parent, l.shipmentLine, l.sku, l.requested, l.received + received,
                                               l.normal + normal, l.defective + defective)]
            && out.db.returnRequests ==
                 d.returnRequests[l.parent := d.returnRequests[l.parent].(status := status)]
            && out.db.movements ==
                 d.movements + (if normal > 0 then [Movement(l.sku, Returned, normal)] else [])
            && out.reply == ReturnInspected(r, status, received, normal, defective)
  {
    var lines', parent := ReturnService.Inspect(d, r, received, normal, defective).db.returnLines,
                          d.returnLines[r].parent;
    assert AllBack(lines', parent) <==> ReturnService.Complete(lines', parent);
  }

  // ---------- crediting ----------

  /** Who is credited for an inspection, and what the next `quantity` units of its shipment line are worth: their price,
      and the growth of the tax share. */
  function Worth(d: Db, s: Id, quantity: int): int
    requires s < |d.shipmentLines| && SentOk(d, s)
  {
    var sent, credited := d.shipmentLines[s], Sum(d.inspections, CreditedOn(s));
    var tax := d.entries[sent.entry].tax;
    quantity * d.lines[sent.line].price
    + Taxes.Share(tax, credited + quantity, sent.quantity) - Taxes.Share(tax, credited, sent.quantity)
  }

  /** An inspection is credited once, for no more than it received; its customer then owes exactly that much less, and
      nobody else's ledger moves. */
  lemma CreditExact(d: Db, n: Id, quantity: int, today: Date, c: Id)
    requires SalesInv(d)
    ensures var out := ReturnService.CreditReturn(d, n, quantity, today);
            && (out.Done? <==>
                  n < |d.inspections| && 1 <= quantity <= d.inspections[n].received && d.inspections[n].credit == None)
            && (out.Done? ==>
                  var s := d.inspections[n].shipmentLine;
                  && s < |d.shipmentLines| && SentOk(d, s)
                  && Sum(out.db.entries, OwedBy(c)) ==
                       Sum(d.entries, OwedBy(c)) - (if c == CustomerOf(d, s) then Worth(d, s, quantity) else 0)
                  && Sum(out.db.inspections, CreditedOn(s)) == Sum(d.inspections, CreditedOn(s)) + quantity)
  {
    if n < |d.inspections| {
      var p := d.inspections[n];
      assert InspectionOk(d, n) && ReturnLineOk(d, p.returnLine);
      var s := p.shipmentLine;
      assert CreditedOk(d, s);
      var out := ReturnService.CreditReturn(d, n, quantity, today);
      if out.Done? {
        SumAppend(d.entries, out.db.entries[|d.entries|], OwedBy(c));
        SumUpdate(d.inspections, n, out.db.inspections[n], CreditedOn(s));
      }
    }
  }

  /** A credit is written to its inspection, and posted today to the ledger of the customer the units were shipped to;
      if a finalized settlement bills the shipment, it is posted on the first of the next month instead. */
  lemma CreditPosted(d: Db, n: Id, quantity: int, today: Date)
    requires SalesInv(d) && ReturnService.CreditReturn(d, n, quantity, today).Done?
    ensures n < |d.inspections| && d.inspections[n].shipmentLine < |d.shipmentLines|
    ensures SentOk(d, d.inspections[n].shipmentLine)
    ensures var out, s := ReturnService.CreditReturn(d, n, quantity, today), d.inspections[n].shipmentLine;
            var sent := d.shipmentLines[s];
            var price, tax := d.lines[sent.line].price, Worth(d, s, quantity) - quantity * d.lines[sent.line].price;
            var credit := Credit(quantity, quantity * price, tax, quantity * price + tax);
            var date := if exists m: Id, j: Id ::
                             && m < |d.settlementLines| && j < |d.settlements|
                             && d.settlementLines[m].entry == sent.entry && d.settlementLines[m].settlement == j
                             && d.settlements[j].status == Finalized
                        then Date(today.month + 1, 1) else today;
            && out.db.entries ==
                 d.entries + [Entry(CustomerOf(d, s), OfCredit(n, s), date, quantity, price, -credit.supply,
                                    -credit.tax, -credit.amount)]
            && out.db.inspections == d.inspections[n := d.inspections[n].(credit := Some(credit))]
            && out.reply == ReturnCredited(n, credit)
  {
    var p := d.inspections[n];
    assert InspectionOk(d, n) && ReturnLineOk(d, p.returnLine);
    var s := p.shipmentLine;
    assert CreditedOk(d, s);
    BilledWhen(d, d.shipmentLines[s].entry);
  }

  lemma BilledWhen(d: Db, x: Id)
    ensures ReturnService.Billed(d, x) <==>
              exists m: Id, j: Id ::
                && m < |d.settlementLines| && j < |d.settlements|
                && d.settlementLines[m].entry == x && d.settlementLines[m].settlement == j
                && d.settlements[j].status == Finalized
  {
    if ReturnService.Billed(d, x) {
      var m: Id :| m < |d.settlementLines| && d.settlementLines[m].entry == x
                   && d.settlementLines[m].settlement < |d.settlements|
                   && d.settlements[d.settlementLines[m].settlement].status == Finalized;
      var j := d.settlementLines[m].settlement;
      assert d.settlementLines[m].settlement == j;
    }
  }

  // ---------- defects ----------

  /** Defective units of an inspection are decided on once; they go back to a supplier only if it is active. */
  lemma DisposeExact(d: Db, n: Id, quantity: int, fate: Fate, supplierActive: bool)
    ensures var out := ReturnService.Dispose(d, n, quantity, fate, supplierActive);
            && (out.Done? <==>
                  && quantity >= 1 && n < |d.inspections|
                  && Sum(d.dispositions, DecidedFor(n)) + quantity <= d.inspections[n].defective
                  && (fate == SupplierReturn ==> supplierActive))
            && (out.Done? ==>
                  && out.db == d.(dispositions := d.dispositions + [Disposition(n, quantity, fate)])
                  && out.reply == DefectDecided(n, quantity, fate))
  {
  }

  /** Quarantined units are resolved once, and for good. */
  lemma ResolveExact(d: Db, i: Id, quantity: int, fate: Fate, supplierActive: bool)
    ensures var out := ReturnService.Resolve(d, i, quantity, fate, supplierActive);
            && (out.Done? <==>
                  && quantity >= 1 && fate in {Disposed, SupplierReturn}
                  && i < |d.dispositions| && d.dispositions[i].fate == Quarantine
                  && Sum(d.resolutions, ResolvedFor(i)) + quantity <= d.dispositions[i].quantity
                  && (fate == SupplierReturn ==> supplierActive))
            && (out.Done? ==>
                  && out.db == d.(resolutions := d.resolutions + [Resolution(i, quantity, fate)])
                  && out.reply == DefectResolved(|d.resolutions|, quantity, fate))
  {
  }

  // ---------- paying ----------

  /** An allocation uses up exactly its amount of its payment and settles exactly that much of its settlement. */
  lemma AllocationExact(d: Db, p: Id, j: Id, amount: int, q: Id, i: Id)
    requires ReceivableService.AllocatePayment(d, p, j, amount).Done?
    ensures var d' := ReceivableService.AllocatePayment(d, p, j, amount).db;
            && Sum(d'.allocations, LiveFrom(q)) == Sum(d.allocations, LiveFrom(q)) + (if q == p then amount else 0)
            && Sum(d'.allocations, LiveTo(i)) == Sum(d.allocations, LiveTo(i)) + (if i == j then amount else 0)
  {
    SumAppend(d.allocations, Allocation(p, j, amount, 0), LiveFrom(q));
    SumAppend(d.allocations, Allocation(p, j, amount, 0), LiveTo(i));
  }

  /** A refund uses up exactly its amount of its source. Paid out of a credit it also takes the credit off the ledger of
      the customer it was granted to; paid out of a payment it leaves every ledger alone. */
  lemma RefundExact(d: Db, source: RefundSource, amount: int, date: Date, reference: string, other: RefundSource, c: Id)
    requires SalesInv(d) && ReceivableService.RecordRefund(d, source, amount, date, reference).Done?
    ensures var d' := ReceivableService.RecordRefund(d, source, amount, date, reference).db;
            && Sum(d'.refunds, RefundedFrom(other)) ==
                Sum(d.refunds, RefundedFrom(other)) + (if other == source then amount else 0)
            && match source
               case FromPayment(_) => d'.entries == d.entries
               case FromCredit(n) =>
                 && n < |d.inspections| && d.inspections[n].shipmentLine < |d.shipmentLines|
                 && SentOk(d, d.inspections[n].shipmentLine)
                 && Sum(d'.entries, OwedBy(c)) ==
                      Sum(d.entries, OwedBy(c))
                      + (if c == CustomerOf(d, d.inspections[n].shipmentLine) then amount else 0)
  {
    var d' := ReceivableService.RecordRefund(d, source, amount, date, reference).db;
    SumAppend(d.refunds, Refund(source, amount, reference), RefundedFrom(other));
    if source.FromCredit? {
      var n := source.inspection;
      assert InspectionOk(d, n) && ReturnLineOk(d, d.inspections[n].returnLine);
      SumAppend(d.entries, d'.entries[|d.entries|], OwedBy(c));
    }
  }
}
