/** What an import objects to, and what it leaves, stated on the rows and the tables. */
module ImportEffects {
  import opened Wrappers
  import opened Tables
  import opened ImportParser
  import opened ImportService
  import opened ImportProofs

  // ---------- what the analysis objects to ----------

  /** The column the code of a customer, supplier, warehouse or product is in. */
  function OwnCode(row: ImportRow): string {
    if row.recordType == Product then row.sku else row.code
  }

  /** What a price or a stock refers to is in the catalog, or comes with the file. */
  ghost predicate Exists(data: Data, rows: seq<ImportRow>, recordType: RecordType, code: string) {
    || Key(recordType, code, "") in data.catalog.entities
    || exists i: nat :: i < |rows| && rows[i].recordType == recordType && OwnCode(rows[i]) == code
  }

  /** The SKU of a stock row, if its warehouse and its product are in the catalog. */
  predicate IsSkuOf(data: Data, row: ImportRow, k: Sku) {
    && Key(Warehouse, row.warehouseCode, "") in data.catalog.entities
    && Key(Product, row.sku, "") in data.catalog.entities
    && k.warehouse == data.catalog.entities[Key(Warehouse, row.warehouseCode, "")].id
    && k.product == data.catalog.entities[Key(Product, row.sku, "")].id
  }

  /** The row is in the catalog or the stock already, as it stands in the file. */
  ghost predicate IsThere(data: Data, row: ImportRow) {
    match row.recordType
    case Price =>
      var key := Key(Price, row.customerCode, row.sku);
      && key in data.catalog.prices && data.catalog.prices[key].active
      && Some(data.catalog.prices[key].unitPrice) == row.unitPrice
    case Stock =>
      exists k :: IsSkuOf(data, row, k) && k in data.db.balances && data.db.balances[k].reserved == 0
                  && Some(data.db.balances[k].onHand) == row.quantity
    case _ =>
      var key := Key(row.recordType, OwnCode(row), "");
      && key in data.catalog.entities && data.catalog.entities[key].active
      && data.catalog.entities[key].name == row.name
      && (row.recordType == Product ==> data.catalog.entities[key].saleUnit == row.saleUnit)
  }

  /** Nothing of the row is there yet: no master or price under its codes, no unit in stock or reserved. */
  ghost predicate IsNew(data: Data, row: ImportRow) {
    match row.recordType
    case Price => Key(Price, row.customerCode, row.sku) !in data.catalog.prices
    case Stock => forall k | IsSkuOf(data, row, k) && k in data.db.balances :: data.db.balances[k] == Balance(0, 0)
    case _ => Key(row.recordType, OwnCode(row), "") !in data.catalog.entities
  }

  ghost predicate RefersToExisting(data: Data, rows: seq<ImportRow>, row: ImportRow) {
    && (row.recordType == Price ==> Exists(data, rows, Customer, row.customerCode))
    && (row.recordType == Stock ==> Exists(data, rows, Warehouse, row.warehouseCode))
    && (row.recordType in {Price, Stock} ==> Exists(data, rows, Product, row.sku))
  }

  ghost predicate Unobjectionable(data: Data, rows: seq<ImportRow>, row: ImportRow) {
    RefersToExisting(data, rows, row) && (IsThere(data, row) || IsNew(data, row))
  }

  lemma KnownExists(data: Data, rows: seq<ImportRow>, recordType: RecordType, code: string)
    requires recordType in {Customer, Warehouse, Product}
    ensures Key(recordType, code, "") in KnownKeys(data.catalog, rows, |rows|) <==>
              Exists(data, rows, recordType, code)
  {
    KnownAre(data.catalog, rows, |rows|, Key(recordType, code, ""));
    forall i: nat | i < |rows|
      ensures IsMaster(rows[i]) && KeyOf(rows[i]) == Key(recordType, code, "") <==>
                rows[i].recordType == recordType && OwnCode(rows[i]) == code
    {
    }
  }

  lemma SkuIs(data: Data, row: ImportRow, k: Sku)
    ensures SkuOf(data.catalog.entities, row) == Some(k) <==> IsSkuOf(data, row, k)
  {
  }

  lemma StockThereOrNew(data: Data, row: ImportRow)
    requires row.recordType == Stock
    ensures IsThere(data, row) <==>
              exists b :: StockOf(data, row) == Some(b) && b.reserved == 0 && Some(b.onHand) == row.quantity
    ensures IsNew(data, row) <==> StockOf(data, row) == None || StockOf(data, row) == Some(Balance(0, 0))
  {
    forall k ensures SkuOf(data.catalog.entities, row) == Some(k) <==> IsSkuOf(data, row, k) {
      SkuIs(data, row, k);
    }
    if StockOf(data, row).Some? {
      var k := SkuOf(data.catalog.entities, row).value;
      assert IsSkuOf(data, row, k);
    }
  }

  /** The analysis passes a row exactly when it is unobjectionable, and creates it exactly when it is not there. */
  lemma JudgeExact(data: Data, rows: seq<ImportRow>, row: ImportRow)
    requires FieldError(row) == None
    ensures var judged := Judge(data, KnownKeys(data.catalog, rows, |rows|), row);
            && (judged.Success? <==> Unobjectionable(data, rows, row))
            && (judged.Success? ==> judged.value == !IsThere(data, row))
            && (judged == Failure(MissingReference) <==> !RefersToExisting(data, rows, row))
            && (judged == Failure(StockPresent) ==> row.recordType == Stock)
            && (judged == Failure(DifferentValue) ==> row.recordType != Stock)
  {
    KnownExists(data, rows, Customer, row.customerCode);
    KnownExists(data, rows, Warehouse, row.warehouseCode);
    KnownExists(data, rows, Product, row.sku);
    if row.recordType == Stock {
      StockThereOrNew(data, row);
      if StockOf(data, row).Some? {
        var b := StockOf(data, row).value;
        assert StockOf(data, row) == Some(b);
      }
    }
  }

  lemma {:induction false} NoObjection(data: Data, known: set<Key>, rows: seq<ImportRow>, n: nat)
    requires n <= |rows|
    ensures AnalyzeRows(data, known, rows, n).errors == [] <==>
              forall i: nat | i < n :: Judge(data, known, rows[i]).Success?
  {
    if n > 0 {
      NoObjection(data, known, rows, n - 1);
    }
  }

  /** A file is analysed without error exactly when each of its rows is new or there already as it stands in the file,
      and what its prices and stocks are for exists or comes with it; the rows that are not there are then created. */
  lemma AnalyzeExact(data: Data, rows: seq<ImportRow>)
    requires Accepted(rows)
    ensures var analysis := Analyze(data, rows);
            && (analysis.errors == [] <==> forall i: nat | i < |rows| :: Unobjectionable(data, rows, rows[i]))
            && (analysis.errors == [] ==>
                  && |analysis.decisions| == |rows|
                  && forall i: nat | i < |rows| ::
                       analysis.decisions[i] == Decision(rows[i], !IsThere(data, rows[i])))
  {
    var known := KnownKeys(data.catalog, rows, |rows|);
    forall i: nat | i < |rows|
      ensures Judge(data, known, rows[i]).Success? <==> Unobjectionable(data, rows, rows[i])
      ensures Judge(data, known, rows[i]).Success? ==> Judge(data, known, rows[i]).value == !IsThere(data, rows[i])
    {
      JudgeExact(data, rows, rows[i]);
    }
    NoObjection(data, known, rows, |rows|);
    if Analyze(data, rows).errors == [] {
      DecisionsAre(data, known, rows, |rows|);
    }
  }

  // ---------- what an import leaves ----------

  /** Everything in the catalog is as before. */
  ghost predicate CatalogStays(data: Data, after: Data) {
    && (forall key | key in data.catalog.entities ::
          key in after.catalog.entities && after.catalog.entities[key] == data.catalog.entities[key])
    && (forall key | key in data.catalog.prices ::
          key in after.catalog.prices && after.catalog.prices[key] == data.catalog.prices[key])
  }

  /** Nothing is in the catalog that was not there before or is in the file. */
  ghost predicate OnlyRows(data: Data, rows: seq<ImportRow>, after: Data) {
    && (forall key | key in after.catalog.entities && key !in data.catalog.entities :: exists i: nat ::
          i < |rows| && key == Key(rows[i].recordType, OwnCode(rows[i]), ""))
    && (forall key | key in after.catalog.prices && key !in data.catalog.prices :: exists i: nat ::
          i < |rows| && key == Key(Price, rows[i].customerCode, rows[i].sku))
  }

  /** Only balances of the file's stock rows change, and of the other tables only the movements. */
  ghost predicate StockStaysUnless(data: Data, rows: seq<ImportRow>, after: Data) {
    && after.db == data.db.(balances := after.db.balances, movements := after.db.movements)
    && forall k | k in after.db.balances || k in data.db.balances ::
         || (k in after.db.balances && k in data.db.balances && after.db.balances[k] == data.db.balances[k])
         || exists i: nat :: i < |rows| && rows[i].recordType == Stock && IsSkuOf(after, rows[i], k)
  }

  lemma RowLeft(data: Data, rows: seq<ImportRow>, i: nat)
    requires DataOk(data) && Accepted(rows) && ImportService.Apply(data, rows).Success? && i < |rows|
    ensures IsThere(ImportService.Apply(data, rows).value, rows[i])
  {
    var after := ImportService.Apply(data, rows).value;
    ImportIsIdempotent(data, rows);
    AnalyzeExact(after, rows);
    assert Analyze(after, rows).decisions[i] == Decision(rows[i], false);
  }

  lemma CatalogLeft(data: Data, rows: seq<ImportRow>, decisions: seq<Decision>, catalog: Catalog, after: Data)
    requires WentThrough(data, rows, decisions, catalog, after)
    ensures CatalogStays(data, after) && OnlyRows(data, rows, after)
  {
    forall key | key in after.catalog.entities && key !in data.catalog.entities
      ensures exists i: nat :: i < |rows| && key == Key(rows[i].recordType, OwnCode(rows[i]), "")
    {
      var i: nat :| i < |decisions| && Creates(decisions[i], key);
      assert decisions[i].row == rows[i];
    }
    forall key | key in after.catalog.prices && key !in data.catalog.prices
      ensures exists i: nat :: i < |rows| && key == Key(Price, rows[i].customerCode, rows[i].sku)
    {
      var i: nat :| i < |decisions| && IsNewPrice(decisions[i]) && KeyOf(decisions[i].row) == key;
      assert decisions[i].row == rows[i];
    }
  }

  lemma StockLeft(data: Data, rows: seq<ImportRow>, decisions: seq<Decision>, catalog: Catalog, after: Data)
    requires WentThrough(data, rows, decisions, catalog, after)
    ensures StockStaysUnless(data, rows, after)
  {
    var middle := data.(catalog := catalog);
    forall k | k in after.db.balances || k in data.db.balances
      ensures || (k in after.db.balances && k in data.db.balances && after.db.balances[k] == data.db.balances[k])
              || exists i: nat :: i < |rows| && rows[i].recordType == Stock && IsSkuOf(after, rows[i], k)
    {
      if Untouched(middle, decisions, |decisions|, k) {
        assert SameAt(data.db.balances, after.db.balances, k);
      } else {
        var i: nat :| i < |decisions| && IsNewStock(decisions[i])
                      && SkuOf(catalog.entities, decisions[i].row) == Some(k);
        assert decisions[i].row == rows[i];
        SkuIs(after, rows[i], k);
      }
    }
  }

  /** After an import every row of the file is there as it stands in the file; everything else in the catalog and in
      stock is as before. */
  lemma ImportLeaves(data: Data, rows: seq<ImportRow>)
    requires DataOk(data) && Accepted(rows) && ImportService.Apply(data, rows).Success?
    ensures var after := ImportService.Apply(data, rows).value;
            && (forall i: nat | i < |rows| :: IsThere(after, rows[i]))
            && CatalogStays(data, after) && OnlyRows(data, rows, after) && StockStaysUnless(data, rows, after)
  {
    forall i: nat | i < |rows| ensures IsThere(ImportService.Apply(data, rows).value, rows[i]) {
      RowLeft(data, rows, i);
    }
    ImportSucceeds(data, rows);
    var decisions := Analyze(data, rows).decisions;
    var catalog := CreateMasters(data.catalog, decisions, |decisions|).value;
    CatalogLeft(data, rows, decisions, catalog, ImportService.Apply(data, rows).value);
    StockLeft(data, rows, decisions, catalog, ImportService.Apply(data, rows).value);
  }
}
