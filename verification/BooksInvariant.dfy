/** What every command keeps true of settlements, payments, allocations and refunds. */
module BooksInvariant {
  import opened Wrappers
  import opened Tables
  import opened Sums
  import opened Totals
  import Calendar
  import opened ReceivableService

  // ---------- settlements ----------

  /** A settlement line repeats its entry, which belongs to the settlement's customer and month. */
  predicate SettledOk(d: Db, n: Id)
    requires n < |d.settlementLines|
  {
    var l := d.settlementLines[n];
    && l.settlement < |d.settlements| && l.entry < |d.entries|
    && l == LineFor(d, l.settlement, l.entry)
    && d.entries[l.entry].customer == d.settlements[l.settlement].customer
    && d.entries[l.entry].date.month == d.settlements[l.settlement].month
    && l.amount == l.supply + l.tax
  }

  /** A settlement's header holds the totals of its lines. */
  ghost predicate HeaderOk(settlements: seq<Settlement>, settlementLines: seq<SettlementLine>, j: Id) {
    var h := if j < |settlements| then settlements[j] else Settlement(0, 0, Draft, 0, 0, 0, 1, None);
    && Sum(settlementLines, SupplyIn(j)) == h.supply
    && Sum(settlementLines, TaxIn(j)) == h.tax
    && Sum(settlementLines, AmountIn(j)) == h.total == h.supply + h.tax
  }

  /** A settlement has its due date from the day it is finalized. */
  predicate DueOk(h: Settlement) {
    h.due == if h.status == Finalized then Some(Calendar.DueDate(h.month, h.dueDay)) else None
  }

  ghost predicate SettlementsOk(d: Db) {
    && (forall j: Id | j < |d.settlements| :: DueOk(d.settlements[j]))
    && (forall n: Id | n < |d.settlementLines| :: SettledOk(d, n))
    && (forall m: Id, n: Id | m < n < |d.settlementLines| :: d.settlementLines[m].entry != d.settlementLines[n].entry)
    && (forall j: Id :: HeaderOk(d.settlements, d.settlementLines, j))
    && (forall a: Id, b: Id | a < b < |d.settlements| ::
          d.settlements[a].customer != d.settlements[b].customer || d.settlements[a].month != d.settlements[b].month)
  }

  // ---------- payments ----------

  /** A payment is not used beyond its amount, and a voided one not at all. */
  ghost predicate PaymentOk(payments: seq<Payment>, allocations: seq<Allocation>, refunds: seq<Refund>, p: Id) {
    var live, refunded := Sum(allocations, LiveFrom(p)), Sum(refunds, RefundedFrom(FromPayment(p)));
    && live + refunded <= (if p < |payments| then payments[p].amount else 0)
    && (p < |payments| ==> payments[p].amount >= 1)
    && (p < |payments| && payments[p].status == Voided ==> live == 0 && refunded == 0)
  }

  predicate AllocationOk(payments: seq<Payment>, settlements: seq<Settlement>, a: Allocation) {
    && a.payment < |payments| && a.settlement < |settlements|
    && settlements[a.settlement].status == Finalized
    && payments[a.payment].customer == settlements[a.settlement].customer
    && a.amount >= 1
    && a.reversals == (if payments[a.payment].status == Voided then 1 else 0)
  }

  /** What is paid towards a settlement never exceeds what it bills; a settlement can bill less than nothing. */
  ghost predicate PaidOk(d: Db, j: Id) {
    Sum(d.allocations, LiveTo(j)) <= Max(0, Sum(d.settlementLines, AmountIn(j)))
  }

  ghost predicate PaymentsOk(d: Db) {
    && (forall p: Id :: PaymentOk(d.payments, d.allocations, d.refunds, p))
    && (forall a: Id | a < |d.allocations| :: AllocationOk(d.payments, d.settlements, d.allocations[a]))
    && (forall a: Id, b: Id | a < b < |d.allocations| ::
          || d.allocations[a].payment != d.allocations[b].payment
          || d.allocations[a].settlement != d.allocations[b].settlement)
    && (forall j: Id :: PaidOk(d, j))
  }

  // ---------- refunds ----------

  /** A credit is not paid out beyond its amount. */
  ghost predicate RepaidOk(inspections: seq<Inspection>, refunds: seq<Refund>, n: Id) {
    Sum(refunds, RefundedFrom(FromCredit(n))) <=
      (if n < |inspections| && inspections[n].credit.Some? then inspections[n].credit.value.amount else 0)
  }

  /** The ledger has an entry for the refund. */
  ghost predicate Posted(entries: seq<Entry>, r: Id) {
    exists x: Id :: x < |entries| && entries[x].source == OfRefund(r)
  }

  ghost predicate RefundsOk(d: Db) {
    && (forall r: Id | r < |d.refunds| && d.refunds[r].source.FromCredit? :: Posted(d.entries, r))
    && (forall n: Id :: RepaidOk(d.inspections, d.refunds, n))
    && (forall r: Id | r < |d.refunds| :: d.refunds[r].amount >= 1)
    && (forall q: Id, r: Id | q < r < |d.refunds| :: d.refunds[q].reference != d.refunds[r].reference)
  }

  ghost predicate BooksInv(d: Db) {
    SettlementsOk(d) && PaymentsOk(d) && RefundsOk(d)
  }

  // ---------- commands that write none of these tables ----------

  /** The ledger only grows, and credits once granted stay. */
  ghost predicate LedgerKept(d: Db, d': Db) {
    && |d.entries| <= |d'.entries| && d'.entries[..|d.entries|] == d.entries
    && |d.inspections| <= |d'.inspections|
    && (forall n: Id | n < |d.inspections| && d.inspections[n].credit.Some? ::
        d'.inspections[n].credit == d.inspections[n].credit)
    && (forall n: Id | n < |d'.inspections| && d'.inspections[n].credit.Some? ::
        d'.inspections[n].credit.value.amount >= 0)
  }

  ghost predicate BooksKept(d: Db, d': Db) {
    && LedgerKept(d, d')
    && d'.settlements == d.settlements && d'.settlementLines == d.settlementLines
    && d'.payments == d.payments && d'.allocations == d.allocations && d'.refunds == d.refunds
  }

  lemma LedgerSettled(d: Db, d': Db)
    requires LedgerKept(d, d') && SettlementsOk(d)
    requires d'.settlements == d.settlements && d'.settlementLines == d.settlementLines
    ensures SettlementsOk(d')
  {
    forall n: Id | n < |d.settlementLines| ensures SettledOk(d', n) {
      assert SettledOk(d, n);
      assert d'.entries[..|d.entries|][d.settlementLines[n].entry] == d'.entries[d.settlementLines[n].entry];
    }
  }

  lemma StaysPosted(entries: seq<Entry>, entries': seq<Entry>, r: Id)
    requires Posted(entries, r) && |entries| <= |entries'| && entries'[..|entries|] == entries
    ensures Posted(entries', r)
  {
    var x: Id :| x < |entries| && entries[x].source == OfRefund(r);
    assert entries'[..|entries|][x] == entries'[x];
  }

  lemma KeptKeeps(d: Db, d': Db)
    requires BooksKept(d, d') && BooksInv(d)
    ensures BooksInv(d')
  {
    LedgerSettled(d, d');
    forall j: Id ensures PaidOk(d', j) {
      assert PaidOk(d, j);
    }
    forall n: Id ensures RepaidOk(d'.inspections, d'.refunds, n) {
      assert RepaidOk(d.inspections, d.refunds, n);
    }
    forall r: Id | r < |d.refunds| && d.refunds[r].source.FromCredit? ensures Posted(d'.entries, r) {
      StaysPosted(d.entries, d'.entries, r);
    }
  }

  // ---------- settlements are drafted and finalized ----------

  predicate DraftedOk(d: Db, customer: Id, month: int, n: nat, l: SettlementLine)
    requires n <= |d.entries|
  {
    l.entry < n && Unsettled(d, customer, month, l.entry) && l == LineFor(d, |d.settlements|, l.entry)
  }

  ghost predicate Ascending(lines: seq<SettlementLine>) {
    forall l, m | 0 <= l < m < |lines| :: lines[l].entry < lines[m].entry
  }

  lemma {:induction false} DraftLinesAre(d: Db, customer: Id, month: int, n: nat)
    requires n <= |d.entries|
    ensures forall m: nat | m < |DraftLines(d, customer, month, n)| ::
              DraftedOk(d, customer, month, n, DraftLines(d, customer, month, n)[m])
    ensures Ascending(DraftLines(d, customer, month, n))
    ensures forall e: Id | e < n && Unsettled(d, customer, month, e) ::
              LineFor(d, |d.settlements|, e) in DraftLines(d, customer, month, n)
  {
    if n > 0 {
      DraftLinesAre(d, customer, month, n - 1);
      var lines := DraftLines(d, customer, month, n - 1);
      forall m | 0 <= m < |lines| ensures lines[m].entry < n - 1 {
        assert DraftedOk(d, customer, month, n - 1, lines[m]);
      }
    }
  }

  /** A draft bills exactly the customer's entries of the month that no settlement bills yet. */
  lemma DraftBillsUnsettled(d: Db, customer: Id, month: int, dueDay: Option<DueDay>, e: Id)
    requires DraftSettlement(d, customer, month, dueDay).Done? && e < |d.entries|
    ensures var d' := DraftSettlement(d, customer, month, dueDay).db;
            (exists n: Id :: |d.settlementLines| <= n < |d'.settlementLines| && d'.settlementLines[n].entry == e) <==>
              && d.entries[e].customer == customer && d.entries[e].date.month == month
              && forall n: Id | n < |d.settlementLines| :: d.settlementLines[n].entry != e
  {
    var d' := DraftSettlement(d, customer, month, dueDay).db;
    var lines := DraftLines(d, customer, month, |d.entries|);
    DraftLinesAre(d, customer, month, |d.entries|);
    if Unsettled(d, customer, month, e) {
      var m: Id :| m < |lines| && lines[m] == LineFor(d, |d.settlements|, e);
      assert d'.settlementLines[|d.settlementLines| + m] == lines[m];
    }
    if n: Id :| |d.settlementLines| <= n < |d'.settlementLines| && d'.settlementLines[n].entry == e {
      assert d'.settlementLines[n] == lines[n - |d.settlementLines|];
    }
  }

  lemma DraftHeaders(d: Db, lines: seq<SettlementLine>, header: Settlement, j: Id)
    requires forall j: Id :: HeaderOk(d.settlements, d.settlementLines, j)
    requires forall n | 0 <= n < |lines| ::
               lines[n].settlement == |d.settlements| && lines[n].amount == lines[n].supply + lines[n].tax
    requires header.supply == Sum(lines, SupplyIn(|d.settlements|)) && header.tax == Sum(lines, TaxIn(|d.settlements|))
    requires header.total == Sum(lines, AmountIn(|d.settlements|))
    ensures HeaderOk(d.settlements + [header], d.settlementLines + lines, j)
  {
    assert HeaderOk(d.settlements, d.settlementLines, j);
    SumConcat(d.settlementLines, lines, SupplyIn(j));
    SumConcat(d.settlementLines, lines, TaxIn(j));
    SumConcat(d.settlementLines, lines, AmountIn(j));
    if j == |d.settlements| {
      SumSplit(lines, AmountIn(j), SupplyIn(j), TaxIn(j));
    } else {
      SumZero(lines, SupplyIn(j));
      SumZero(lines, TaxIn(j));
      SumZero(lines, AmountIn(j));
    }
  }

  lemma DraftSettlements(d: Db, customer: Id, month: int, dueDay: Option<DueDay>)
    requires SettlementsOk(d) && DraftSettlement(d, customer, month, dueDay).Done?
    requires forall x: Id | x < |d.entries| :: d.entries[x].amount == d.entries[x].supply + d.entries[x].tax
    ensures SettlementsOk(DraftSettlement(d, customer, month, dueDay).db)
  {
    var d' := DraftSettlement(d, customer, month, dueDay).db;
    var lines, before := DraftLines(d, customer, month, |d.entries|), |d.settlementLines|;
    DraftLinesAre(d, customer, month, |d.entries|);
    forall n: Id | n < |d'.settlementLines|
      ensures SettledOk(d', n)
      ensures n >= before ==> d'.settlementLines[n] == lines[n - before]
    {
      if n < before {
        assert SettledOk(d, n);
        assert d'.settlementLines[n] == d.settlementLines[n];
        assert d'.settlements[d.settlementLines[n].settlement] == d.settlements[d.settlementLines[n].settlement];
      } else {
        assert DraftedOk(d, customer, month, |d.entries|, lines[n - before]);
      }
    }
    forall m: Id, n: Id | m < n < |d'.settlementLines|
      ensures d'.settlementLines[m].entry != d'.settlementLines[n].entry
    {
      if m < before <= n {
        assert d'.settlementLines[m] == d.settlementLines[m];
        assert DraftedOk(d, customer, month, |d.entries|, lines[n - before]);
      } else if before <= m {
        assert lines[m - before].entry < lines[n - before].entry;
      }
    }
    forall j: Id ensures HeaderOk(d'.settlements, d'.settlementLines, j) {
      forall n | 0 <= n < |lines|
        ensures lines[n].settlement == |d.settlements| && lines[n].amount == lines[n].supply + lines[n].tax
      {
        assert DraftedOk(d, customer, month, |d.entries|, lines[n]);
      }
      DraftHeaders(d, lines, d'.settlements[|d.settlements|], j);
    }
  }

  lemma DraftPayments(d: Db, customer: Id, month: int, dueDay: Option<DueDay>)
    requires BooksInv(d) && DraftSettlement(d, customer, month, dueDay).Done?
    ensures PaymentsOk(DraftSettlement(d, customer, month, dueDay).db)
  {
    var d' := DraftSettlement(d, customer, month, dueDay).db;
    var lines := DraftLines(d, customer, month, |d.entries|);
    DraftLinesAre(d, customer, month, |d.entries|);
    forall j: Id ensures PaidOk(d', j) {
      assert PaidOk(d, j);
      SumConcat(d.settlementLines, lines, AmountIn(j));
      if j == |d.settlements| {
        forall a: Id | a < |d.allocations| ensures LiveTo(j)(d.allocations[a]) == 0 {
          assert AllocationOk(d.payments, d.settlements, d.allocations[a]);
        }
        SumZero(d.allocations, LiveTo(j));
      } else {
        forall n | 0 <= n < |lines| ensures AmountIn(j)(lines[n]) == 0 {
          assert DraftedOk(d, customer, month, |d.entries|, lines[n]);
        }
        SumZero(lines, AmountIn(j));
      }
    }
    forall a: Id | a < |d.allocations| ensures AllocationOk(d'.payments, d'.settlements, d'.allocations[a]) {
      assert AllocationOk(d.payments, d.settlements, d.allocations[a]);
    }
  }

  lemma DraftKeeps(d: Db, customer: Id, month: int, dueDay: Option<DueDay>)
    requires BooksInv(d)
    requires forall x: Id | x < |d.entries| :: d.entries[x].amount == d.entries[x].supply + d.entries[x].tax
    ensures var out := DraftSettlement(d, customer, month, dueDay); out.Done? ==> BooksInv(out.db)
  {
    if DraftSettlement(d, customer, month, dueDay).Done? {
      DraftSettlements(d, customer, month, dueDay);
      DraftPayments(d, customer, month, dueDay);
    }
  }

  lemma FinalizeKeeps(d: Db, j: Id)
    requires BooksInv(d)
    ensures FinalizeSettlement(d, j).Done? ==> BooksInv(FinalizeSettlement(d, j).db)
  {
    if FinalizeSettlement(d, j).Done? {
      var d' := FinalizeSettlement(d, j).db;
      forall n: Id | n < |d.settlementLines| ensures SettledOk(d', n) {
        assert SettledOk(d, n);
      }
      forall i: Id ensures HeaderOk(d'.settlements, d'.settlementLines, i) {
        assert HeaderOk(d.settlements, d.settlementLines, i);
      }
      forall i: Id ensures PaidOk(d', i) {
        assert PaidOk(d, i);
      }
      forall a: Id | a < |d.allocations| ensures AllocationOk(d'.payments, d'.settlements, d'.allocations[a]) {
        assert AllocationOk(d.payments, d.settlements, d.allocations[a]);
      }
    }
  }

  // ---------- money moves ----------

  lemma SettlementsKept(d: Db, d': Db)
    requires SettlementsOk(d)
    requires d' == d.(payments := d'.payments, allocations := d'.allocations, refunds := d'.refunds,
                      entries := d'.entries)
    requires |d.entries| <= |d'.entries| && d'.entries[..|d.entries|] == d.entries
    ensures SettlementsOk(d')
  {
    forall n: Id | n < |d.settlementLines| ensures SettledOk(d', n) {
      assert SettledOk(d, n);
      assert d'.entries[..|d.entries|][d.settlementLines[n].entry] == d'.entries[d.settlementLines[n].entry];
    }
  }

  lemma PayKeeps(d: Db, customer: Id, customerKnown: bool, amount: int)
    requires BooksInv(d)
    ensures Pay(d, customer, customerKnown, amount).Done? ==> BooksInv(Pay(d, customer, customerKnown, amount).db)
  {
    if Pay(d, customer, customerKnown, amount).Done? {
      var d' := Pay(d, customer, customerKnown, amount).db;
      SettlementsKept(d, d');
      forall p: Id ensures PaymentOk(d'.payments, d'.allocations, d'.refunds, p) {
        assert PaymentOk(d.payments, d.allocations, d.refunds, p);
      }
      forall a: Id | a < |d.allocations| ensures AllocationOk(d'.payments, d'.settlements, d'.allocations[a]) {
        assert AllocationOk(d.payments, d.settlements, d.allocations[a]);
      }
      forall j: Id ensures PaidOk(d', j) {
        assert PaidOk(d, j);
      }
    }
  }

  lemma AllocateKeeps(d: Db, p: Id, j: Id, amount: int)
    requires BooksInv(d)
    ensures var out := AllocatePayment(d, p, j, amount); out.Done? ==> BooksInv(out.db)
  {
    var out := AllocatePayment(d, p, j, amount);
    if out.Done? {
      var d', added := out.db, Allocation(p, j, amount, 0);
      SettlementsKept(d, d');
      forall q: Id ensures PaymentOk(d'.payments, d'.allocations, d'.refunds, q) {
        assert PaymentOk(d.payments, d.allocations, d.refunds, q);
        SumAppend(d.allocations, added, LiveFrom(q));
      }
      forall i: Id ensures PaidOk(d', i) {
        assert PaidOk(d, i);
        SumAppend(d.allocations, added, LiveTo(i));
      }
      forall a: Id | a < |d'.allocations| ensures AllocationOk(d'.payments, d'.settlements, d'.allocations[a]) {
        if a < |d.allocations| {
          assert AllocationOk(d.payments, d.settlements, d.allocations[a]);
        }
      }
    }
  }

  /** Voiding reverses each allocation of the payment once, so nothing of it stays live and nothing else changes. */
  lemma VoidReverses(d: Db, p: Id, q: Id, j: Id)
    requires BooksInv(d) && VoidPayment(d, p).Done?
    ensures var d' := VoidPayment(d, p).db;
            && Sum(d'.allocations, LiveFrom(q)) == (if q == p then 0 else Sum(d.allocations, LiveFrom(q)))
            && Sum(d'.allocations, LiveTo(j)) <= Sum(d.allocations, LiveTo(j))
  {
    var d' := VoidPayment(d, p).db;
    if q == p {
      SumZero(d'.allocations, LiveFrom(p));
    } else {
      SumEqual(d'.allocations, LiveFrom(q), d.allocations, LiveFrom(q));
    }
    forall a: Id | a < |d.allocations| ensures LiveTo(j)(d'.allocations[a]) <= LiveTo(j)(d.allocations[a]) {
      assert AllocationOk(d.payments, d.settlements, d.allocations[a]);
    }
    SumLeq(d'.allocations, LiveTo(j), d.allocations, LiveTo(j));
  }

  lemma VoidKeeps(d: Db, p: Id)
    requires BooksInv(d)
    ensures VoidPayment(d, p).Done? ==> BooksInv(VoidPayment(d, p).db)
  {
    if VoidPayment(d, p).Done? {
      var d' := VoidPayment(d, p).db;
      SettlementsKept(d, d');
      forall q: Id ensures PaymentOk(d'.payments, d'.allocations, d'.refunds, q) {
        assert PaymentOk(d.payments, d.allocations, d.refunds, q);
        VoidReverses(d, p, q, 0);
        if q == p {
          SumZero(d.refunds, RefundedFrom(FromPayment(p)));
        }
      }
      forall j: Id ensures PaidOk(d', j) {
        assert PaidOk(d, j);
        VoidReverses(d, p, p, j);
      }
      forall a: Id | a < |d'.allocations| ensures AllocationOk(d'.payments, d'.settlements, d'.allocations[a]) {
        assert AllocationOk(d.payments, d.settlements, d.allocations[a]);
      }
    }
  }

  lemma RefundKeeps(d: Db, source: RefundSource, amount: int, date: Date, reference: string)
    requires BooksInv(d)
    ensures var out := RecordRefund(d, source, amount, date, reference); out.Done? ==> BooksInv(out.db)
  {
    var out := RecordRefund(d, source, amount, date, reference);
    if out.Done? {
      var d', added := out.db, Refund(source, amount, reference);
      SettlementsKept(d, d');
      assert d'.refunds == d.refunds + [added];
      forall p: Id ensures PaymentOk(d'.payments, d'.allocations, d'.refunds, p) {
        assert PaymentOk(d.payments, d.allocations, d.refunds, p);
        SumAppend(d.refunds, added, RefundedFrom(FromPayment(p)));
      }
      forall n: Id ensures RepaidOk(d'.inspections, d'.refunds, n) {
        assert RepaidOk(d.inspections, d.refunds, n);
        SumAppend(d.refunds, added, RefundedFrom(FromCredit(n)));
      }
      forall r: Id | r < |d'.refunds| && d'.refunds[r].source.FromCredit? ensures Posted(d'.entries, r) {
        if r < |d.refunds| {
          StaysPosted(d.entries, d'.entries, r);
        } else {
          assert d'.entries[|d.entries|].source == OfRefund(r);
        }
      }
      forall j: Id ensures PaidOk(d', j) {
        assert PaidOk(d, j);
      }
    }
  }
}
