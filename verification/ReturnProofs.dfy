/** Returning, inspecting, crediting, deciding on defects and refunding credits keep the sales invariant. */
module ReturnProofs {
  import opened Tables
  import opened Sums
  import opened Totals
  import opened SalesInvariant
  import opened ReturnService
  import ReceivableService
  import Taxes

  // ---------- request ----------

  lemma {:induction false} OneRowPerLine(added: seq<ReturnLine>, s: Id)
    requires forall m, n | 0 <= m < n < |added| :: added[m].shipmentLine != added[n].shipmentLine
    ensures forall n | 0 <= n < |added| && added[n].shipmentLine == s ::
              Sum(added, RequestedOn(s)) == added[n].requested
    ensures (forall n | 0 <= n < |added| :: added[n].shipmentLine != s) ==> Sum(added, RequestedOn(s)) == 0
  {
    if added != [] {
      OneRowPerLine(added[..|added| - 1], s);
    }
  }

  lemma RequestAsks(d: Db, d': Db, added: seq<ReturnLine>, parent: Return)
    requires SalesInv(d)
    requires d' == d.(returnRequests := d.returnRequests + [parent], returnLines := d.returnLines + added)
    requires forall r: Id | |d.returnLines| <= r < |d'.returnLines| :: ReturnLineOk(d', r)
    requires forall m, n | 0 <= m < n < |added| :: added[m].shipmentLine != added[n].shipmentLine
    requires forall n | 0 <= n < |added| ::
               && added[n].shipmentLine < |d.shipmentLines|
               && Sum(d.returnLines, RequestedOn(added[n].shipmentLine)) + added[n].requested
                    <= d.shipmentLines[added[n].shipmentLine].quantity
    ensures ReturnsOk(d')
  {
    forall r: Id | r < |d'.returnLines| ensures ReturnLineOk(d', r) {
      if r < |d.returnLines| {
        assert ReturnLineOk(d, r);
        assert d'.returnLines[r] == d.returnLines[r];
        assert SentOk(d', d.returnLines[r].shipmentLine);
      }
    }
    forall s: Id ensures AskedOk(d', s) {
      assert AskedOk(d, s);
      SumConcat(d.returnLines, added, RequestedOn(s));
      OneRowPerLine(added, s);
      if n: nat :| n < |added| && added[n].shipmentLine == s {
        assert Sum(added, RequestedOn(s)) == added[n].requested;
      }
    }
  }

  lemma RequestTallies(d: Db, d': Db, added: seq<ReturnLine>, parent: Return)
    requires SalesInv(d)
    requires d' == d.(returnRequests := d.returnRequests + [parent], returnLines := d.returnLines + added)
    requires forall n | 0 <= n < |added| :: added[n].received == 0 && added[n].normal == 0 && added[n].defective == 0
    ensures InspectionsOk(d') && FlowsOk(d')
  {
    forall n: Id | n < |d.inspections| ensures InspectionOk(d', n) {
      assert InspectionOk(d, n);
    }
    forall r: Id ensures TalliedOk(d', r) {
      assert TalliedOk(d, r);
    }
    forall s: Id ensures Sum(d'.inspections, InspectedOn(s)) == Sum(d'.returnLines, ReceivedOn(s)) {
      SumConcat(d.returnLines, added, ReceivedOn(s));
      SumZero(added, ReceivedOn(s));
    }
    forall k ensures FlowOk(d', k) {
      assert FlowOk(d, k);
      SumConcat(d.returnLines, added, NormalAt(k));
      SumZero(added, NormalAt(k));
    }
  }

  lemma SameSold(d: Db, d': Db)
    requires SalesInv(d)
    requires d' == d.(balances := d'.balances, movements := d'.movements, returnRequests := d'.returnRequests,
                      returnLines := d'.returnLines, inspections := d'.inspections,
                      dispositions := d'.dispositions, resolutions := d'.resolutions)
    requires |d.inspections| <= |d'.inspections| && d'.inspections[..|d.inspections|] == d.inspections
    requires forall s: Id :: Sum(d'.inspections, CreditedOn(s)) == Sum(d.inspections, CreditedOn(s))
    requires forall s: Id :: Sum(d'.inspections, CreditedTaxOn(s)) == Sum(d.inspections, CreditedTaxOn(s))
    ensures ShipmentsOk(d') && EntriesOk(d') && CreditsOk(d')
  {
    forall s: Id | s < |d.shipmentLines| ensures SentOk(d', s) && CustomerOf(d', s) == CustomerOf(d, s) {
      assert SentOk(d, s);
    }
    forall i: Id ensures ChargedOk(d', i) {
      assert ChargedOk(d, i);
    }
    forall x: Id | x < |d.entries| ensures EntryOk(d', x) {
      assert EntryOk(d, x);
      if d.entries[x].source.OfCredit? {
        assert d'.inspections[d.entries[x].source.inspection] ==
            d'.inspections[..|d.inspections|][d.entries[x].source.inspection];
      }
    }
    forall s: Id ensures CreditedOk(d', s) {
      assert CreditedOk(d, s);
    }
  }

  lemma RequestSales(d: Db, customer: Id, rows: seq<ReturnRow>)
    requires SalesInv(d)
    ensures var out := Request(d, customer, rows); out.Done? ==> SalesInv(out.db)
  {
    var out := Request(d, customer, rows);
    if out.Done? {
      var d', parent := out.db, |d.returnRequests|;
      var added := d'.returnLines[|d.returnLines|..];
      assert d'.returnLines == d.returnLines + added;
      RequestRows(d, customer, rows, added);
      SameSold(d, d');
      RequestAsks(d, d', added, d'.returnRequests[parent]);
      RequestTallies(d, d', added, d'.returnRequests[parent]);
      forall r: Id | r < |d.returnLines| ensures d.returnLines[r].parent < |d.returnRequests| {
        assert ReturnLineOk(d, r);
      }
      RequestStatuses(d, d', added);
    }
  }

  /** The rows a request adds are well formed and ask for no more than is left. */
  lemma RequestRows(d: Db, customer: Id, rows: seq<ReturnRow>, added: seq<ReturnLine>)
    requires SalesInv(d) && Request(d, customer, rows).Done?
    requires added == Request(d, customer, rows).db.returnLines[|d.returnLines|..]
    ensures |added| == |rows|
    ensures forall n | 0 <= n < |rows| ::
              && ShippedTo(d, rows[n].shipmentLine, customer)
              && added[n] == RequestRow(d, |d.returnRequests|, rows[n])
              && Sum(d.returnLines, RequestedOn(rows[n].shipmentLine)) + rows[n].quantity <=
                  d.shipmentLines[rows[n].shipmentLine].quantity
    ensures var d' := Request(d, customer, rows).db;
            forall r: Id | |d.returnLines| <= r < |d'.returnLines| :: ReturnLineOk(d', r)
  {
    var d' := Request(d, customer, rows).db;
    forall r: Id | |d.returnLines| <= r < |d'.returnLines| ensures ReturnLineOk(d', r) {
      assert d'.returnLines[r] == RequestRow(d, |d.returnRequests|, rows[r - |d.returnLines|]);
      assert SentOk(d, d'.returnLines[r].shipmentLine);
    }
  }

  lemma RequestStatuses(d: Db, d': Db, added: seq<ReturnLine>)
    requires StatusesOk(d.returnRequests, d.returnLines) && added != []
    requires |d'.returnRequests| == |d.returnRequests| + 1
    requires d'.returnRequests[..|d.returnRequests|] == d.returnRequests
    requires d'.returnRequests[|d.returnRequests|].status == Requested
    requires d'.returnLines == d.returnLines + added
    requires forall n | 0 <= n < |added| ::
               added[n].parent == |d.returnRequests| && added[n].received != added[n].requested
    requires forall r: Id | r < |d.returnLines| :: d.returnLines[r].parent < |d.returnRequests|
    ensures StatusesOk(d'.returnRequests, d'.returnLines)
  {
    assert d'.returnLines[|d.returnLines|] == added[0];
    forall p: Id | p < |d.returnRequests|
      ensures d'.returnRequests[p] == d.returnRequests[p]
      ensures Complete(d.returnLines, p) <==> Complete(d'.returnLines, p)
    {
      assert d'.returnRequests[..|d.returnRequests|][p] == d'.returnRequests[p];
      assert forall r: Id | r < |d.returnLines| :: d'.returnLines[r] == d.returnLines[r];
    }
  }

  // ---------- inspect ----------

  lemma InspectReturns(d: Db, i: Id, received: int, normal: int, defective: int)
    requires SalesInv(d) && Inspect(d, i, received, normal, defective).Done?
    ensures var d' := Inspect(d, i, received, normal, defective).db;
            ReturnsOk(d') && StatusesOk(d'.returnRequests, d'.returnLines)
  {
    var d' := Inspect(d, i, received, normal, defective).db;
    forall r: Id | r < |d.returnLines| ensures ReturnLineOk(d', r) {
      assert ReturnLineOk(d, r);
      assert SentOk(d', d.returnLines[r].shipmentLine);
    }
    forall s: Id ensures AskedOk(d', s) {
      assert AskedOk(d, s);
      SumUpdate(d.returnLines, i, d'.returnLines[i], RequestedOn(s));
    }
    forall p: Id | p < |d.returnRequests| && p != d.returnLines[i].parent
      ensures Complete(d.returnLines, p) <==> Complete(d'.returnLines, p)
    {
      assert forall r: Id | r < |d.returnLines| && r != i :: d'.returnLines[r] == d.returnLines[r];
    }
  }

  lemma InspectTallies(d: Db, i: Id, received: int, normal: int, defective: int)
    requires SalesInv(d) && Inspect(d, i, received, normal, defective).Done?
    ensures var d' := Inspect(d, i, received, normal, defective).db;
            InspectionsOk(d') && FlowsOk(d')
  {
    var d' := Inspect(d, i, received, normal, defective).db;
    var added, l' := d'.inspections[|d.inspections|], d'.returnLines[i];
    assert ReturnLineOk(d, i);
    forall n: Id | n < |d'.inspections| ensures InspectionOk(d', n) {
      if n < |d.inspections| {
        assert InspectionOk(d, n);
        assert d'.inspections[n] == d.inspections[n];
      }
      assert SentOk(d', d'.inspections[n].shipmentLine);
    }
    forall r: Id ensures TalliedOk(d', r) {
      assert TalliedOk(d, r);
      SumAppend(d.inspections, added, ReceivedFor(r));
      SumAppend(d.inspections, added, NormalFor(r));
      SumAppend(d.inspections, added, DefectiveFor(r));
    }
    forall s: Id ensures Sum(d'.inspections, InspectedOn(s)) == Sum(d'.returnLines, ReceivedOn(s)) {
      SumAppend(d.inspections, added, InspectedOn(s));
      SumUpdate(d.returnLines, i, l', ReceivedOn(s));
    }
    var move := Movement(d.returnLines[i].sku, Returned, normal);
    forall k ensures FlowOk(d', k) {
      assert FlowOk(d, k);
      SumUpdate(d.returnLines, i, l', NormalAt(k));
      SumAppend(d.movements, move, DeltaOfKind(k, Dispatched));
      SumAppend(d.movements, move, DeltaOfKind(k, Returned));
    }
  }

  lemma InspectSales(d: Db, i: Id, received: int, normal: int, defective: int)
    requires SalesInv(d)
    ensures var out := Inspect(d, i, received, normal, defective); out.Done? ==> SalesInv(out.db)
  {
    var out := Inspect(d, i, received, normal, defective);
    if out.Done? {
      var d' := out.db;
      var added := d'.inspections[|d.inspections|];
      forall s: Id
        ensures Sum(d'.inspections, CreditedOn(s)) == Sum(d.inspections, CreditedOn(s))
        ensures Sum(d'.inspections, CreditedTaxOn(s)) == Sum(d.inspections, CreditedTaxOn(s))
      {
        SumAppend(d.inspections, added, CreditedOn(s));
        SumAppend(d.inspections, added, CreditedTaxOn(s));
      }
      SameSold(d, d');
      InspectReturns(d, i, received, normal, defective);
      InspectTallies(d, i, received, normal, defective);
    }
  }

  // ---------- credit ----------

  lemma CreditIsShare(d: Db, n: Id, quantity: int, today: Date)
    requires SalesInv(d) && CreditReturn(d, n, quantity, today).Done?
    ensures NextCredit(d, d.inspections[n].shipmentLine, quantity).tax >= 0
    ensures CreditsOk(CreditReturn(d, n, quantity, today).db)
  {
    var d' := CreditReturn(d, n, quantity, today).db;
    var s := d.inspections[n].shipmentLine;
    var sent, credit, e := d.shipmentLines[s], NextCredit(d, s, quantity), d'.entries[|d.entries|];
    assert InspectionOk(d, n) && SentOk(d, s);
    var before := Sum(d.inspections, CreditedOn(s));
    assert CreditedOk(d, s);
    Taxes.ShareGrows(d.entries[sent.entry].tax, before, before + quantity, sent.quantity);
    forall t: Id ensures CreditedOk(d', t) {
      assert CreditedOk(d, t);
      SumUpdate(d.inspections, n, d'.inspections[n], CreditedOn(t));
      SumUpdate(d.inspections, n, d'.inspections[n], CreditedTaxOn(t));
      SumAppend(d.entries, e, NetOn(t));
      if t < |d.shipmentLines| {
        assert SentOk(d, t) && SentOk(d', t);
        assert d'.entries[d.shipmentLines[t].entry] == d.entries[d.shipmentLines[t].entry];
      }
      if t == s {
        var price := d.lines[sent.line].price;
        assert (sent.quantity - before - quantity) * price == (sent.quantity - before) * price - quantity * price;
      }
    }
  }

  lemma CreditShipments(d: Db, d': Db, n: Id, e: Entry)
    requires ShipmentsOk(d) && n < |d.inspections| && !e.source.OfShipment?
    requires d' == d.(inspections := d'.inspections, refunds := d'.refunds, entries := d.entries + [e])
    ensures ShipmentsOk(d')
    ensures forall s: Id | s < |d.shipmentLines| ::
              SentOk(d, s) && SentOk(d', s) && CustomerOf(d', s) == CustomerOf(d, s)
  {
    forall s: Id | s < |d.shipmentLines|
      ensures SentOk(d, s) && SentOk(d', s) && CustomerOf(d', s) == CustomerOf(d, s)
    {
      assert SentOk(d, s);
      assert d'.entries[d.shipmentLines[s].entry] == d.entries[d.shipmentLines[s].entry];
    }
    forall i: Id ensures ChargedOk(d', i) {
      assert ChargedOk(d, i);
      SumAppend(d.entries, e, SupplyOn(i));
      SumAppend(d.entries, e, TaxOn(i));
    }
  }

  lemma CreditInspections(d: Db, n: Id, quantity: int, today: Date)
    requires SalesInv(d) && CreditReturn(d, n, quantity, today).Done?
    requires ShipmentsOk(CreditReturn(d, n, quantity, today).db)
    ensures var d' := CreditReturn(d, n, quantity, today).db;
            InspectionsOk(d') && DefectsOk(d'.inspections, d'.dispositions, d'.resolutions)
  {
    var d' := CreditReturn(d, n, quantity, today).db;
    CreditIsShare(d, n, quantity, today);
    forall m: Id | m < |d'.inspections| ensures InspectionOk(d', m) {
      assert InspectionOk(d, m);
      assert SentOk(d', d.inspections[m].shipmentLine);
    }
    forall r: Id ensures TalliedOk(d', r) {
      assert TalliedOk(d, r);
      SumUpdate(d.inspections, n, d'.inspections[n], ReceivedFor(r));
      SumUpdate(d.inspections, n, d'.inspections[n], NormalFor(r));
      SumUpdate(d.inspections, n, d'.inspections[n], DefectiveFor(r));
    }
    forall s: Id ensures Sum(d'.inspections, InspectedOn(s)) == Sum(d'.returnLines, ReceivedOn(s)) {
      SumUpdate(d.inspections, n, d'.inspections[n], InspectedOn(s));
    }
  }

  lemma CreditReturns(d: Db, d': Db)
    requires SalesInv(d)
    requires d' == d.(inspections := d'.inspections, entries := d'.entries, refunds := d'.refunds)
    requires forall s: Id | s < |d.shipmentLines| ::
               SentOk(d, s) && SentOk(d', s) && CustomerOf(d', s) == CustomerOf(d, s)
    ensures ReturnsOk(d') && FlowsOk(d')
  {
    forall r: Id | r < |d.returnLines| ensures ReturnLineOk(d', r) {
      assert ReturnLineOk(d, r);
    }
    forall s: Id ensures AskedOk(d', s) {
      assert AskedOk(d, s);
    }
    forall k ensures FlowOk(d', k) {
      assert FlowOk(d, k);
    }
  }

  lemma CreditSales(d: Db, n: Id, quantity: int, today: Date)
    requires SalesInv(d)
    ensures var out := CreditReturn(d, n, quantity, today); out.Done? ==> SalesInv(out.db)
  {
    var out := CreditReturn(d, n, quantity, today);
    if out.Done? {
      var d', e := out.db, out.db.entries[|d.entries|];
      assert InspectionOk(d, n);
      assert ReturnLineOk(d, d.inspections[n].returnLine);
      CreditShipments(d, d', n, e);
      forall x: Id | x < |d'.entries| ensures EntryOk(d', x) {
        if x < |d.entries| {
          assert EntryOk(d, x);
          assert d'.entries[x] == d.entries[x];
        }
      }
      CreditReturns(d, d');
      CreditInspections(d, n, quantity, today);
      CreditIsShare(d, n, quantity, today);
    }
  }

  // ---------- defects ----------

  lemma DisposeSales(d: Db, n: Id, quantity: int, fate: Fate, supplierActive: bool)
    requires SalesInv(d)
    ensures var out := Dispose(d, n, quantity, fate, supplierActive); out.Done? ==> SalesInv(out.db)
  {
    var out := Dispose(d, n, quantity, fate, supplierActive);
    if out.Done? {
      var d' := out.db;
      var added := Disposition(n, quantity, fate);
      SameSold(d, d');
      UntouchedReturns(d, d');
      forall m: Id
        ensures Sum(d'.dispositions, DecidedFor(m)) == Sum(d.dispositions, DecidedFor(m)) + DecidedFor(m)(added)
      {
        SumAppend(d.dispositions, added, DecidedFor(m));
      }
      assert Sum(d.resolutions, ResolvedFor(|d.dispositions|)) <= 0;
    }
  }

  lemma ResolveSales(d: Db, i: Id, quantity: int, fate: Fate, supplierActive: bool)
    requires SalesInv(d)
    ensures var out := Resolve(d, i, quantity, fate, supplierActive); out.Done? ==> SalesInv(out.db)
  {
    var out := Resolve(d, i, quantity, fate, supplierActive);
    if out.Done? {
      var d' := out.db;
      var added := Resolution(i, quantity, fate);
      SameSold(d, d');
      UntouchedReturns(d, d');
      forall m: Id
        ensures Sum(d'.resolutions, ResolvedFor(m)) == Sum(d.resolutions, ResolvedFor(m)) + ResolvedFor(m)(added)
      {
        SumAppend(d.resolutions, added, ResolvedFor(m));
      }
    }
  }

  lemma UntouchedReturns(d: Db, d': Db)
    requires SalesInv(d) && d' == d.(dispositions := d'.dispositions, resolutions := d'.resolutions)
    ensures ReturnsOk(d') && InspectionsOk(d') && FlowsOk(d')
  {
    forall r: Id | r < |d.returnLines| ensures ReturnLineOk(d', r) {
      assert ReturnLineOk(d, r);
    }
    forall s: Id ensures AskedOk(d', s) {
      assert AskedOk(d, s);
    }
    forall n: Id | n < |d.inspections| ensures InspectionOk(d', n) {
      assert InspectionOk(d, n);
    }
    forall r: Id ensures TalliedOk(d', r) {
      assert TalliedOk(d, r);
    }
    forall k ensures FlowOk(d', k) {
      assert FlowOk(d, k);
    }
  }

  // ---------- refunds ----------

  lemma RefundSales(d: Db, source: RefundSource, amount: int, date: Date, reference: string)
    requires SalesInv(d)
    ensures var out := ReceivableService.RecordRefund(d, source, amount, date, reference);
            out.Done? ==> SalesInv(out.db)
  {
    var out := ReceivableService.RecordRefund(d, source, amount, date, reference);
    if out.Done? {
      var d' := out.db;
      if source.FromCredit? {
        var e := d'.entries[|d.entries|];
        CreditShipments(d, d', source.inspection, e);
        CreditReturns(d, d');
        RefundEntries(d, d', e);
        RefundCredits(d, d', e);
      } else {
        RefundedPayment(d, d');
      }
    }
  }

  lemma RefundEntries(d: Db, d': Db, e: Entry)
    requires SalesInv(d) && e.source == OfRefund(|d.refunds|) && |d'.refunds| == |d.refunds| + 1
    requires d' == d.(refunds := d.refunds + [d'.refunds[|d.refunds|]], entries := d.entries + [e])
    requires d'.refunds[|d.refunds|].source.FromCredit? && e.amount == d'.refunds[|d.refunds|].amount >= 1
    requires e.amount == e.supply + e.tax
    requires forall s: Id | s < |d.shipmentLines| ::
               SentOk(d, s) && SentOk(d', s) && CustomerOf(d', s) == CustomerOf(d, s)
    ensures EntriesOk(d') && InspectionsOk(d')
  {
    forall x: Id | x < |d'.entries| ensures EntryOk(d', x) {
      if x < |d.entries| {
        assert EntryOk(d, x);
        assert d'.entries[x] == d.entries[x];
      }
    }
    forall n: Id | n < |d.inspections| ensures InspectionOk(d', n) {
      assert InspectionOk(d, n);
    }
    forall r: Id ensures TalliedOk(d', r) {
      assert TalliedOk(d, r);
    }
  }

  lemma RefundCredits(d: Db, d': Db, e: Entry)
    requires SalesInv(d) && e.source.OfRefund?
    requires d' == d.(refunds := d'.refunds, entries := d.entries + [e])
    requires forall s: Id | s < |d.shipmentLines| :: SentOk(d, s) && SentOk(d', s)
    ensures CreditsOk(d')
  {
    forall s: Id ensures CreditedOk(d', s) {
      assert CreditedOk(d, s);
      SumAppend(d.entries, e, NetOn(s));
      if s < |d.shipmentLines| {
        assert d'.entries[d.shipmentLines[s].entry] == d.entries[d.shipmentLines[s].entry];
      }
    }
  }

  /** Refunding a payment leaves the ledger alone. */
  lemma RefundedPayment(d: Db, d': Db)
    requires SalesInv(d)
    requires d' == d.(refunds := d'.refunds, settlements := d'.settlements, settlementLines := d'.settlementLines,
                      payments := d'.payments, allocations := d'.allocations)
    requires |d.refunds| <= |d'.refunds| && d'.refunds[..|d.refunds|] == d.refunds
    ensures SalesInv(d')
  {
    forall s: Id | s < |d.shipmentLines| ensures SentOk(d', s) && CustomerOf(d', s) == CustomerOf(d, s) {
      assert SentOk(d, s);
    }
    forall i: Id ensures ChargedOk(d', i) {
      assert ChargedOk(d, i);
    }
    forall x: Id | x < |d.entries| ensures EntryOk(d', x) {
      assert EntryOk(d, x);
      if d.entries[x].source.OfRefund? {
        assert d'.refunds[d.entries[x].source.refund] == d'.refunds[..|d.refunds|][d.entries[x].source.refund];
      }
    }
    RefundedReturns(d, d');
    forall s: Id ensures CreditedOk(d', s) {
      assert CreditedOk(d, s);
    }
  }

  lemma RefundedReturns(d: Db, d': Db)
    requires ReturnsOk(d) && InspectionsOk(d) && FlowsOk(d)
    requires d' == d.(refunds := d'.refunds, settlements := d'.settlements, settlementLines := d'.settlementLines,
                      payments := d'.payments, allocations := d'.allocations)
    requires forall s: Id | s < |d.shipmentLines| && SentOk(d, s) :: SentOk(d', s)
    ensures ReturnsOk(d') && InspectionsOk(d') && FlowsOk(d')
  {
    forall r: Id | r < |d.returnLines| ensures ReturnLineOk(d', r) {
      assert ReturnLineOk(d, r);
    }
    forall s: Id ensures AskedOk(d', s) {
      assert AskedOk(d, s);
    }
    forall n: Id | n < |d.inspections| ensures InspectionOk(d', n) {
      assert InspectionOk(d, n);
    }
    forall r: Id ensures TalliedOk(d', r) {
      assert TalliedOk(d, r);
    }
    forall k ensures FlowOk(d', k) {
      assert FlowOk(d, k);
    }
  }
}
