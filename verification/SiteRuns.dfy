/** The whole site at work: commands, imports and changes of master data in any order, on one database. */
module SiteRuns {
  import opened Wrappers
  import opened Tables
  import opened Sums
  import opened Totals
  import opened StockInvariant
  import opened SalesInvariant
  import opened Commands
  import opened Invariant
  import opened ImportService
  import opened ImportProofs
  import opened SkuRoots
  import P = ImportParser
  import CountFreeze
  import DeadGuards
  import IntegrityChecks

  // ---------- the site ----------

  /** The data and import batches, and the stored results of the commands. */
  datatype Running = Running(site: Site, results: map<Commands.Key, Reply>)

  /** The four tables of master data are entered and changed by hand too; nothing is ever deleted from them. */
  datatype Step =
    | Command(call: Call)
    | Upload(content: string)
    | Enter(key: P.Key, name: string, saleUnit: string, active: bool)
    | SetPrice(customerCode: string, sku: string, unitPrice: int, active: bool)

  const OPENING := Running(Site(Data(Catalog(map[], map[], 0), EMPTY), map[]), map[])

  predicate HasId(catalog: Catalog, recordType: P.RecordType, id: Id) {
    exists key | key in catalog.entities :: key.recordType == recordType && catalog.entities[key].id == id
  }

  /** What the catalog says about the parties and products a command names: a foreign key must be there, whatever else
      the command asks of it. */
  function Checked(catalog: Catalog, op: Op): Op {
    match op
    case SubmitOrder(customer, warehouse, partiesActive, items, createdAt, uuid) =>
      var known := HasId(catalog, P.Customer, customer) && HasId(catalog, P.Warehouse, warehouse);
      SubmitOrder(customer, warehouse, partiesActive && known, OfferedOf(catalog, items), createdAt, uuid)
    case ReceiveStock(partiesKnown, warehouse, receipt) =>
      ReceiveStock(partiesKnown && HasId(catalog, P.Warehouse, warehouse), warehouse, KnownOf(catalog, receipt))
    case RecordPayment(customer, customerKnown, amount) =>
      RecordPayment(customer, customerKnown && HasId(catalog, P.Customer, customer), amount)
    case _ => op
  }

  function OfferedOf(catalog: Catalog, items: seq<Item>): seq<Item> {
    seq(|items|, n requires 0 <= n < |items| =>
      if HasId(catalog, P.Product, items[n].product) then items[n] else items[n].(offer := None))
  }

  function KnownOf(catalog: Catalog, receipt: seq<ReceiptRow>): seq<ReceiptRow> {
    seq(|receipt|, n requires 0 <= n < |receipt| =>
      receipt[n].(known := receipt[n].known && HasId(catalog, P.Product, receipt[n].product)))
  }

  predicate IsMasterKey(key: P.Key) {
    key.recordType != P.Price && key.recordType != P.Stock && key.second == ""
  }

  /** A code that is there keeps its identifier; a new one gets a new identifier. */
  function Entered(catalog: Catalog, key: P.Key, name: string, saleUnit: string, active: bool): Catalog {
    if !IsMasterKey(key) then catalog
    else if key in catalog.entities then
      catalog.(entities := catalog.entities[key := Entity(catalog.entities[key].id, name, saleUnit, active)])
    else
      catalog.(entities := catalog.entities[key := Entity(catalog.next, name, saleUnit, active)],
               next := catalog.next + 1)
  }

  function Priced(catalog: Catalog, customerCode: string, sku: string, unitPrice: int, active: bool): Catalog {
    if P.Key(P.Customer, customerCode, "") !in catalog.entities || P.Key(P.Product, sku, "") !in catalog.entities then
      catalog
    else catalog.(prices := catalog.prices[P.Key(P.Price, customerCode, sku) := PriceRow(unitPrice, active)])
  }

  function WithCatalog(s: Running, catalog: Catalog): Running {
    s.(site := s.site.(data := s.site.data.(catalog := catalog)))
  }

  function StateOf(s: Running): State {
    State(s.site.data.db, s.results)
  }

  /** The command as the site takes it. */
  function CallOn(s: Running, call: Call): Call {
    call.(op := Checked(s.site.data.catalog, call.op))
  }

  /** `upper` is the platform's conversion to upper case. */
  function Advance(upper: string -> string, s: Running, step: Step): Running {
    match step
    case Command(call) =>
      var t := Next(StateOf(s), CallOn(s, call));
      Running(s.site.(data := s.site.data.(db := t.db)), t.results)
    case Upload(content) => s.(site := ImportFile(upper, s.site, content).0)
    case Enter(key, name, saleUnit, active) => WithCatalog(s, Entered(s.site.data.catalog, key, name, saleUnit, active))
    case SetPrice(customerCode, sku, unitPrice, active) =>
      WithCatalog(s, Priced(s.site.data.catalog, customerCode, sku, unitPrice, active))
  }

  function Operate(upper: string -> string, s: Running, steps: seq<Step>): Running {
    if steps == [] then s
    else Advance(upper, Operate(upper, s, steps[..|steps| - 1]), steps[|steps| - 1])
  }

  // ---------- what always holds ----------

  function RootedIn(catalog: Catalog): Sku -> bool {
    (k: Sku) => HasId(catalog, P.Warehouse, k.warehouse) && HasId(catalog, P.Product, k.product)
  }

  /** The database keeps its invariant, the catalog its own, and every SKU is a warehouse and a product of it. */
  ghost predicate SiteOk(data: Data) {
    Inv(data.db) && CatalogOk(data.catalog) && Within(RootedIn(data.catalog), data.db)
  }

  lemma SiteIsDataOk(data: Data)
    requires SiteOk(data)
    ensures DataOk(data)
  {
    forall k | k in data.db.balances ensures k.warehouse < data.catalog.next && k.product < data.catalog.next {
      assert RootedIn(data.catalog)(k);
    }
  }

  /** What is there keeps its identifier. */
  ghost predicate IdsStay(catalog: Catalog, after: Catalog) {
    forall key | key in catalog.entities :: key in after.entities && after.entities[key].id == catalog.entities[key].id
  }

  lemma RootsStay(catalog: Catalog, after: Catalog, d: Db)
    requires Within(RootedIn(catalog), d) && IdsStay(catalog, after)
    ensures Within(RootedIn(after), d)
  {
    forall k | RootedIn(catalog)(k) ensures RootedIn(after)(k) {
      IdStays(catalog, after, P.Warehouse, k.warehouse);
      IdStays(catalog, after, P.Product, k.product);
    }
  }

  lemma IdStays(catalog: Catalog, after: Catalog, recordType: P.RecordType, id: Id)
    requires HasId(catalog, recordType, id) && IdsStay(catalog, after)
    ensures HasId(after, recordType, id)
  {
    var key :| key in catalog.entities && key.recordType == recordType && catalog.entities[key].id == id;
    assert key in after.entities && after.entities[key].id == id;
  }

  // ---------- commands ----------

  lemma CheckedNamesWithin(catalog: Catalog, d: Db, actor: Id, op: Op)
    requires Commands.Apply(d, actor, Checked(catalog, op)).Done?
    ensures NamesWithin(RootedIn(catalog), Checked(catalog, op))
  {
  }

  lemma CommandKeepsSite(s: Running, call: Call)
    requires SiteOk(s.site.data)
    ensures SiteOk(s.site.data.(db := Next(StateOf(s), CallOn(s, call)).db))
  {
    var t, checked, catalog := StateOf(s), CallOn(s, call), s.site.data.catalog;
    NextKeeps(t, checked);
    if !Commands.Refused(checked.op) && !Stored(t, checked) && Commands.Apply(t.db, call.actor, checked.op).Done? {
      CheckedNamesWithin(catalog, t.db, call.actor, call.op);
      ApplyWithin(RootedIn(catalog), t.db, call.actor, checked.op);
    }
  }

  // ---------- imports ----------

  lemma {:induction false} DetailsQuiet(data: Data, decisions: seq<Decision>, n: nat)
    requires n <= |decisions|
    ensures var out := CreateDetails(data, decisions, n); out.Some? ==> Quiet(data.db, out.value.db)
  {
    if n > 0 && CreateDetails(data, decisions, n).Some? {
      DetailsQuiet(data, decisions, n - 1);
      var before := CreateDetails(data, decisions, n - 1).value.db;
      QuietTransitive(data.db, before, CreateDetails(data, decisions, n).value.db);
    }
  }

  /** An import keeps everything the commands keep. */
  lemma ImportKeepsInv(data: Data, rows: seq<P.ImportRow>)
    requires DataOk(data) && P.Accepted(rows) && ImportService.Apply(data, rows).Success? && Inv(data.db)
    ensures Inv(ImportService.Apply(data, rows).value.db)
  {
    ImportKeepsStock(data, rows);
    var decisions, after := Analyze(data, rows).decisions, ImportService.Apply(data, rows).value;
    DetailsQuiet(data.(catalog := CreateMasters(data.catalog, decisions, |decisions|).value), decisions, |decisions|);
    QuietInv(data.db, after.db);
  }

  /** A balance was there before, or is of a SKU the file stocks. */
  lemma StockIsRooted(data: Data, decisions: seq<Decision>, after: Data, k: Sku)
    requires Ready(data, decisions) && DetailsCreated(data, decisions, |decisions|, after)
    requires forall x | x in data.db.balances :: RootedIn(data.catalog)(x)
    requires k in after.db.balances
    ensures RootedIn(after.catalog)(k)
  {
    if Untouched(data, decisions, |decisions|, k) {
      assert SameAt(data.db.balances, after.db.balances, k);
      assert RootedIn(data.catalog)(k);
      IdStays(data.catalog, after.catalog, P.Warehouse, k.warehouse);
      IdStays(data.catalog, after.catalog, P.Product, k.product);
    } else {
      var i: nat :| i < |decisions| && IsNewStock(decisions[i])
          && SkuOf(data.catalog.entities, decisions[i].row) == Some(k);
      assert WarehouseKey(decisions[i].row) in after.catalog.entities
          && ProductKey(decisions[i].row) in after.catalog.entities;
    }
  }

  /** The SKUs an import stocks are rooted in the catalog it leaves. */
  lemma ImportKeepsRoots(data: Data, rows: seq<P.ImportRow>)
    requires SiteOk(data) && P.Accepted(rows) && ImportService.Apply(data, rows).Success?
    ensures Within(RootedIn(ImportService.Apply(data, rows).value.catalog), ImportService.Apply(data, rows).value.db)
  {
    SiteIsDataOk(data);
    ImportSucceeds(data, rows);
    var decisions, after := Analyze(data, rows).decisions, ImportService.Apply(data, rows).value;
    var middle := data.(catalog := CreateMasters(data.catalog, decisions, |decisions|).value);
    RootsStay(data.catalog, middle.catalog, data.db);
    RootsStay(middle.catalog, after.catalog, data.db);
    forall k | k in after.db.balances ensures RootedIn(after.catalog)(k) {
      StockIsRooted(middle, decisions, after, k);
    }
  }

  lemma UploadKeepsSite(upper: string -> string, site: Site, content: string)
    requires SiteOk(site.data)
    ensures SiteOk(ImportFile(upper, site, content).0.data)
  {
    SiteIsDataOk(site.data);
    if IsReadable(upper, content) && content !in site.batches {
      var rows := P.Parse(upper, content, true).value.rows;
      P.ParseAccepts(upper, content, true);
      if ImportService.Apply(site.data, rows).Success? {
        ImportKeepsInv(site.data, rows);
        ImportKeepsRoots(site.data, rows);
        ImportKeepsData(site.data, rows);
      }
    }
  }

  // ---------- master data ----------

  lemma SameIdsKeepCatalog(catalog: Catalog, key: P.Key, e: Entity)
    requires CatalogOk(catalog) && key in catalog.entities && e.id == catalog.entities[key].id
    ensures CatalogOk(catalog.(entities := catalog.entities[key := e]))
  {
  }

  lemma NewIdKeepsCatalog(catalog: Catalog, key: P.Key, e: Entity)
    requires CatalogOk(catalog) && key !in catalog.entities && e.id == catalog.next
    ensures CatalogOk(catalog.(entities := catalog.entities[key := e], next := catalog.next + 1))
  {
  }

  lemma EnterKeepsCatalog(catalog: Catalog, key: P.Key, name: string, saleUnit: string, active: bool)
    requires CatalogOk(catalog)
    ensures CatalogOk(Entered(catalog, key, name, saleUnit, active))
    ensures IdsStay(catalog, Entered(catalog, key, name, saleUnit, active))
  {
    if key in catalog.entities {
      SameIdsKeepCatalog(catalog, key, Entity(catalog.entities[key].id, name, saleUnit, active));
    } else {
      NewIdKeepsCatalog(catalog, key, Entity(catalog.next, name, saleUnit, active));
    }
  }

  lemma EnterKeepsSite(data: Data, key: P.Key, name: string, saleUnit: string, active: bool)
    requires SiteOk(data)
    ensures SiteOk(data.(catalog := Entered(data.catalog, key, name, saleUnit, active)))
  {
    EnterKeepsCatalog(data.catalog, key, name, saleUnit, active);
    RootsStay(data.catalog, Entered(data.catalog, key, name, saleUnit, active), data.db);
  }

  lemma SetPriceKeepsSite(data: Data, customerCode: string, sku: string, unitPrice: int, active: bool)
    requires SiteOk(data)
    ensures SiteOk(data.(catalog := Priced(data.catalog, customerCode, sku, unitPrice, active)))
  {
    RootsStay(data.catalog, Priced(data.catalog, customerCode, sku, unitPrice, active), data.db);
  }

  // ---------- runs ----------

  lemma AdvanceKeepsSite(upper: string -> string, s: Running, step: Step)
    requires SiteOk(s.site.data)
    ensures SiteOk(Advance(upper, s, step).site.data)
  {
    match step
    case Command(call) => CommandKeepsSite(s, call);
    case Upload(content) => UploadKeepsSite(upper, s.site, content);
    case Enter(key, name, saleUnit, active) => EnterKeepsSite(s.site.data, key, name, saleUnit, active);
    case SetPrice(customerCode, sku, unitPrice, active) =>
      SetPriceKeepsSite(s.site.data, customerCode, sku, unitPrice, active);
  }

  /** However commands, imports and changes of master data interleave, the invariant of the database and that of the
      catalog hold, and no table mentions a SKU the catalog does not have. */
  lemma {:induction false} SiteAlwaysOk(upper: string -> string, steps: seq<Step>)
    ensures SiteOk(Operate(upper, OPENING, steps).site.data)
  {
    if steps == [] {
      ReachableInv([]);
      assert Run(START, []) == START;
    } else {
      SiteAlwaysOk(upper, steps[..|steps| - 1]);
      AdvanceKeepsSite(upper, Operate(upper, OPENING, steps[..|steps| - 1]), steps[|steps| - 1]);
    }
  }

  // ---------- the freeze ----------

  ghost predicate FreezeHolds(data: Data) {
    SnapshotsOk(data.db.counts, data.db.balances)
  }

  /** The step imports a file that stocks a SKU while it is being counted. */
  ghost predicate StocksUnderCount(upper: string -> string, site: Site, step: Step) {
    && step.Upload? && IsReadable(upper, step.content) && step.content !in site.batches
    && var rows := P.Parse(upper, step.content, true).value.rows;
       && ImportService.Apply(site.data, rows).Success?
       && var decisions := Analyze(site.data, rows).decisions;
          && CreateMasters(site.data.catalog, decisions, |decisions|).Some?
          && StocksCounted(site.data.(catalog := CreateMasters(site.data.catalog, decisions, |decisions|).value),
                           decisions)
  }

  lemma UploadKeepsFreezeUnless(upper: string -> string, site: Site, content: string)
    requires SiteOk(site.data) && FreezeHolds(site.data)
    ensures FreezeHolds(ImportFile(upper, site, content).0.data) <==> !StocksUnderCount(upper, site, Upload(content))
  {
    SiteIsDataOk(site.data);
    if IsReadable(upper, content) && content !in site.batches {
      var rows := P.Parse(upper, content, true).value.rows;
      P.ParseAccepts(upper, content, true);
      if ImportService.Apply(site.data, rows).Success? {
        ImportKeepsStock(site.data, rows);
      }
    }
  }

  /** A step ends the freeze of a running count exactly when it imports stock for a SKU under count. */
  lemma AdvanceKeepsFreezeUnless(upper: string -> string, s: Running, step: Step)
    requires SiteOk(s.site.data) && FreezeHolds(s.site.data)
    ensures FreezeHolds(Advance(upper, s, step).site.data) <==> !StocksUnderCount(upper, s.site, step)
  {
    if step.Command? {
      CountFreeze.NextKeepsSnapshots(StateOf(s), CallOn(s, step.call));
    } else if step.Upload? {
      UploadKeepsFreezeUnless(upper, s.site, step.content);
    }
  }

  /** No step of the run imports stock for a SKU under count. */
  ghost predicate NeverStocksUnderCount(upper: string -> string, steps: seq<Step>) {
    steps == [] ||
    var init, last := steps[..|steps| - 1], steps[|steps| - 1];
    NeverStocksUnderCount(upper, init) && !StocksUnderCount(upper, Operate(upper, OPENING, init).site, last)
  }

  /** As long as no import stocks a SKU under count, every running count finds the balance it started from. */
  lemma {:induction false} FreezeHoldsUntil(upper: string -> string, steps: seq<Step>)
    requires NeverStocksUnderCount(upper, steps)
    ensures FreezeHolds(Operate(upper, OPENING, steps).site.data)
  {
    if steps != [] {
      FreezeHoldsUntil(upper, steps[..|steps| - 1]);
      SiteAlwaysOk(upper, steps[..|steps| - 1]);
      AdvanceKeepsFreezeUnless(upper, Operate(upper, OPENING, steps[..|steps| - 1]), steps[|steps| - 1]);
    }
  }

  // ---------- what that means ----------

  /** The ledger agrees with the balance, and no more is reserved than is there, for every writer of the two. */
  lemma BooksAgree(upper: string -> string, steps: seq<Step>, k: Sku)
    ensures var d := Operate(upper, OPENING, steps).site.data.db;
            && BalanceOf(d.balances, k).reserved == Sum(d.lines, OpenAt(k))
            && BalanceOf(d.balances, k).onHand == Sum(d.movements, DeltaAt(k))
            && 0 <= BalanceOf(d.balances, k).reserved <= BalanceOf(d.balances, k).onHand
  {
    SiteAlwaysOk(upper, steps);
    var d := Operate(upper, OPENING, steps).site.data.db;
    assert BalanceOk(d.balances, d.lines, d.movements, k);
  }

  /** The integrity queries find nothing to report. */
  lemma SiteStaysHealthy(upper: string -> string, steps: seq<Step>)
    ensures IntegrityChecks.Healthy(Operate(upper, OPENING, steps).site.data.db)
  {
    SiteAlwaysOk(upper, steps);
    IntegrityChecks.InvHealthy(Operate(upper, OPENING, steps).site.data.db);
  }

  lemma CheckedIsDefensive(catalog: Catalog, op: Op, error: Error)
    requires DeadGuards.Defensive(op, error)
    ensures DeadGuards.Defensive(Checked(catalog, op), error)
  {
  }

  /** No command meets a defensive rejection on a site that keeps its invariant, which every run does. */
  lemma SiteNeverDefensive(s: Running, call: Call, error: Error)
    requires SiteOk(s.site.data) && DeadGuards.Defensive(call.op, error)
    ensures Commands.Answer(StateOf(s), CallOn(s, call)) != Failure(error)
  {
    CheckedIsDefensive(s.site.data.catalog, call.op, error);
    DeadGuards.AnswerNeverDefensive(StateOf(s), CallOn(s, call), error);
  }

  /** The database refuses a file only for a new row its columns cannot hold. */
  lemma UploadsViolateExactly(upper: string -> string, steps: seq<Step>, content: string)
    ensures var site := Operate(upper, OPENING, steps).site;
            ImportFile(upper, site, content).1 == Refused(Violation) <==>
              && IsReadable(upper, content) && content !in site.batches
              && Overflows(site.data, P.Parse(upper, content, true).value.rows)
  {
    SiteAlwaysOk(upper, steps);
    SiteIsDataOk(Operate(upper, OPENING, steps).site.data);
    FilesViolateExactly(upper, Operate(upper, OPENING, steps).site, content);
  }
}
