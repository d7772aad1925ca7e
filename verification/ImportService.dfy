/** Importing an accepted file: which rows are new, which are there already, which collide, and the two passes that
    write the new ones. */
module ImportService {
  import opened Wrappers
  import opened Tables
  import opened ImportParser

  // ---------- master data ----------

  /** A customer, supplier, warehouse or product; only products have a sale unit. */
  datatype Entity = Entity(id: Id, name: string, saleUnit: string, active: bool)

  datatype PriceRow = PriceRow(unitPrice: int, active: bool)

  /** The four master tables by record type and code, and the prices by customer code and SKU. Identifiers are drawn
      from `next` on. */
  datatype Catalog = Catalog(entities: map<Key, Entity>, prices: map<Key, PriceRow>, next: Id)

  datatype Data = Data(catalog: Catalog, db: Db)

  predicate IsMaster(row: ImportRow) {
    row.recordType != Price && row.recordType != Stock
  }

  function CustomerKey(row: ImportRow): Key {
    Key(Customer, row.customerCode, "")
  }

  function WarehouseKey(row: ImportRow): Key {
    Key(Warehouse, row.warehouseCode, "")
  }

  function ProductKey(row: ImportRow): Key {
    Key(Product, row.sku, "")
  }

  /** Where the row's stock is kept. */
  function SkuOf(entities: map<Key, Entity>, row: ImportRow): Option<Sku> {
    if WarehouseKey(row) in entities && ProductKey(row) in entities then
      Some(Sku(entities[WarehouseKey(row)].id, entities[ProductKey(row)].id))
    else None
  }

  function StockOf(data: Data, row: ImportRow): Option<Balance> {
    match SkuOf(data.catalog.entities, row)
    case None => None
    case Some(k) => if k in data.db.balances then Some(data.db.balances[k]) else None
  }

  // ---------- analyze ----------

  datatype Decision = Decision(row: ImportRow, created: bool)

  datatype Conflict = MissingReference | DifferentValue | StockPresent

  datatype RowConflict = RowConflict(rowNumber: nat, conflict: Conflict)

  datatype Analysis = Analysis(decisions: seq<Decision>, errors: seq<RowConflict>)

  /** What can be referred to: what is there, and what the file's first `n` rows bring. */
  function KnownKeys(catalog: Catalog, rows: seq<ImportRow>, n: nat): set<Key>
    requires n <= |rows|
  {
    if n == 0 then catalog.entities.Keys
    else KnownKeys(catalog, rows, n - 1) + (if IsMaster(rows[n - 1]) then {KeyOf(rows[n - 1])} else {})
  }

  /** True for a row to be created, false for one that is there already. */
  function Judge(data: Data, known: set<Key>, row: ImportRow): Result<bool, Conflict> {
    match row.recordType
    case Price =>
      if CustomerKey(row) !in known || ProductKey(row) !in known then Failure(MissingReference)
      else if KeyOf(row) !in data.catalog.prices then Success(true)
      else
        var price := data.catalog.prices[KeyOf(row)];
        if price.active && row.unitPrice.Some? && price.unitPrice == row.unitPrice.value then
          Success(false)
        else Failure(DifferentValue)
    case Stock =>
      if WarehouseKey(row) !in known || ProductKey(row) !in known then Failure(MissingReference)
      else
        (match StockOf(data, row)
         case None => Success(true)
         case Some(b) =>
           if row.quantity.Some? && b.onHand == row.quantity.value && b.reserved == 0 then Success(false)
           else if b.onHand != 0 || b.reserved != 0 then Failure(StockPresent)
           else Success(true))
    case _ =>
      if KeyOf(row) !in data.catalog.entities then Success(true)
      else
        var e := data.catalog.entities[KeyOf(row)];
        if e.active && e.name == row.name && (row.recordType == Product ==> e.saleUnit == row.saleUnit) then
          Success(false)
        else Failure(DifferentValue)
  }

  function AnalyzeRows(data: Data, known: set<Key>, rows: seq<ImportRow>, n: nat): Analysis
    requires n <= |rows|
  {
    if n == 0 then Analysis([], [])
    else
      var before, row := AnalyzeRows(data, known, rows, n - 1), rows[n - 1];
      match Judge(data, known, row)
      case Failure(conflict) => before.(errors := before.errors + [RowConflict(row.rowNumber, conflict)])
      case Success(created) => before.(decisions := before.decisions + [Decision(row, created)])
  }

  function Analyze(data: Data, rows: seq<ImportRow>): Analysis {
    AnalyzeRows(data, KnownKeys(data.catalog, rows, |rows|), rows, |rows|)
  }

  // ---------- apply ----------

  function EntityOf(row: ImportRow, id: Id): Entity {
    Entity(id, row.name, if row.recordType == Product then row.saleUnit else "", true)
  }

  predicate IsText(text: string) {
    forall i | 0 <= i < |text| :: text[i] != '\0'
  }

  /** The columns can hold a new row: a database text has no character U+0000, and a quantity is an integer of 32 bits.
      The parser makes sure of neither. */
  predicate Storable(row: ImportRow) {
    && (IsMaster(row) ==> IsText(KeyOf(row).first) && IsText(row.name))
    && (row.recordType == Product ==> IsText(row.saleUnit))
    && (row.recordType == Stock && row.quantity.Some? ==> row.quantity.value <= MAX_INTEGER)
  }

  /** Insert one new customer, supplier, warehouse or product; its code is UNIQUE. */
  function CreateMaster(catalog: Catalog, decision: Decision): Option<Catalog> {
    var key := KeyOf(decision.row);
    if !decision.created || !IsMaster(decision.row) then Some(catalog)
    else if key in catalog.entities || !Storable(decision.row) then None
    else Some(catalog.(entities := catalog.entities[key := EntityOf(decision.row, catalog.next)],
                       next := catalog.next + 1))
  }

  function CreateMasters(catalog: Catalog, decisions: seq<Decision>, n: nat): Option<Catalog>
    requires n <= |decisions|
  {
    if n == 0 then Some(catalog)
    else
      match CreateMasters(catalog, decisions, n - 1)
      case None => None
      case Some(before) => CreateMaster(before, decisions[n - 1])
  }

  /** Stock the row's SKU with its quantity, as a correction from nothing. */
  function PutStock(db: Db, k: Sku, quantity: int): Db {
    var balances := if k in db.balances then db.balances else db.balances[k := Balance(0, 0)];
    if quantity > 0 then
      db.(balances := balances[k := balances[k].(onHand := quantity)],
          movements := db.movements + [Movement(k, Adjusted, quantity)])
    else db.(balances := balances)
  }

  /** Insert one new price or initial stock; both refer to rows that must exist, and a price is UNIQUE. A price that is
      an integer to JavaScript fits its column. */
  function CreateDetail(data: Data, decision: Decision): Option<Data> {
    var row := decision.row;
    if !decision.created || IsMaster(row) then Some(data)
    else if row.recordType == Price then
      if CustomerKey(row) !in data.catalog.entities || ProductKey(row) !in data.catalog.entities
         || KeyOf(row) in data.catalog.prices || row.unitPrice.None? then None
      else
        var prices := data.catalog.prices[KeyOf(row) := PriceRow(row.unitPrice.value, true)];
        Some(data.(catalog := data.catalog.(prices := prices)))
    else if !Storable(row) then None
    else
      match SkuOf(data.catalog.entities, row)
      case None => None
      case Some(k) => Some(data.(db := PutStock(data.db, k, if row.quantity.Some? then row.quantity.value else 0)))
  }

  function CreateDetails(data: Data, decisions: seq<Decision>, n: nat): Option<Data>
    requires n <= |decisions|
  {
    if n == 0 then Some(data)
    else
      match CreateDetails(data, decisions, n - 1)
      case None => None
      case Some(before) => CreateDetail(before, decisions[n - 1])
  }

  datatype ImportFailure = Invalid(errors: seq<RowConflict>) | Violation

  function CreateAll(data: Data, decisions: seq<Decision>): Option<Data> {
    match CreateMasters(data.catalog, decisions, |decisions|)
    case None => None
    case Some(catalog) => CreateDetails(data.(catalog := catalog), decisions, |decisions|)
  }

  function Apply(data: Data, rows: seq<ImportRow>): Result<Data, ImportFailure> {
    var analysis := Analyze(data, rows);
    if analysis.errors != [] then Failure(Invalid(analysis.errors))
    else
      match CreateAll(data, analysis.decisions)
      case None => Failure(Violation)
      case Some(after) => Success(after)
  }

  // ---------- files ----------

  /** What is recorded about an imported file. */
  datatype Batch = Batch(total: nat, created: nat, skipped: nat)

  /** The data with the batches by file content, which the service tells apart by its hash. */
  datatype Site = Site(data: Data, batches: map<string, Batch>)

  datatype Answer =
    | Imported(batch: Batch, duplicate: bool)
    | BadFile(error: FileError)
    | BadRows(errors: seq<ImportError>)
    | Refused(failure: ImportFailure)

  function CountCreated(decisions: seq<Decision>): (created: nat)
    ensures created <= |decisions|
  {
    if decisions == [] then 0
    else CountCreated(decisions[..|decisions| - 1]) + (if decisions[|decisions| - 1].created then 1 else 0)
  }

  function BatchOf(decisions: seq<Decision>): Batch {
    Batch(|decisions|, CountCreated(decisions), |decisions| - CountCreated(decisions))
  }

  /** The transaction for a file whose rows have no error. */
  function ImportRows(site: Site, content: string, rows: seq<ImportRow>): (Site, Answer) {
    if content in site.batches then (site, Imported(site.batches[content], true))
    else
      match Apply(site.data, rows)
      case Failure(failure) => (site, Refused(failure))
      case Success(data) =>
        var batch := BatchOf(Analyze(site.data, rows).decisions);
        (Site(data, site.batches[content := batch]), Imported(batch, false))
  }

  /** The whole command: the state it leaves, and its answer. */
  function ImportFile(upper: string -> string, site: Site, content: string): (Site, Answer) {
    match Parse(upper, content, true)
    case Failure(e) => (site, BadFile(e))
    case Success(parsed) =>
      if parsed.errors != [] then (site, BadRows(parsed.errors)) else ImportRows(site, content, parsed.rows)
  }
}
