/** An import that is accepted succeeds, adds up, books its stock, and finds everything there when it is sent again. */
module ImportProofs {
  import opened Wrappers
  import opened Tables
  import opened Sums
  import opened Totals
  import opened ImportParser
  import opened ImportService
  import opened StockInvariant

  // ---------- what holds between imports ----------

  /** Identifiers are unique and below the next one, and prices and balances refer to what exists. */
  ghost predicate CatalogOk(catalog: Catalog) {
    && (forall key | key in catalog.entities :: catalog.entities[key].id < catalog.next)
    && (forall a, b | a in catalog.entities && b in catalog.entities && a != b ::
        catalog.entities[a].id != catalog.entities[b].id)
    && (forall key | key in catalog.prices ::
          Key(Customer, key.first, "") in catalog.entities && Key(Product, key.second, "") in catalog.entities)
  }

  ghost predicate DataOk(data: Data) {
    && CatalogOk(data.catalog)
    && (forall k | k in data.db.balances :: k.warehouse < data.catalog.next && k.product < data.catalog.next)
  }

  // ---------- the decisions ----------

  lemma {:induction false} DecisionsAre(data: Data, known: set<Key>, rows: seq<ImportRow>, n: nat)
    requires n <= |rows| && AnalyzeRows(data, known, rows, n).errors == []
    ensures var decisions := AnalyzeRows(data, known, rows, n).decisions;
            && |decisions| == n
            && forall i: nat | i < n :: Judge(data, known, rows[i]) == Success(decisions[i].created)
                && decisions[i].row == rows[i]
  {
    if n > 0 {
      DecisionsAre(data, known, rows, n - 1);
    }
  }

  lemma {:induction false} KnownAre(catalog: Catalog, rows: seq<ImportRow>, n: nat, key: Key)
    requires n <= |rows|
    ensures key in KnownKeys(catalog, rows, n) <==>
              key in catalog.entities || exists i: nat :: i < n && IsMaster(rows[i]) && KeyOf(rows[i]) == key
  {
    if n > 0 {
      KnownAre(catalog, rows, n - 1, key);
      if key in KnownKeys(catalog, rows, n) && key !in KnownKeys(catalog, rows, n - 1) {
        assert IsMaster(rows[n - 1]) && KeyOf(rows[n - 1]) == key;
      }
    }
  }

  /** The decisions on a file the analysis has no objection to. */
  ghost predicate Decided(data: Data, rows: seq<ImportRow>, decisions: seq<Decision>) {
    && |decisions| == |rows| && Accepted(rows)
    && forall i: nat | i < |rows| ::
         decisions[i].row == rows[i] && Judge(data, KnownKeys(data.catalog, rows, |rows|), rows[i]) ==
             Success(decisions[i].created)
  }

  // ---------- first pass ----------

  predicate Creates(decision: Decision, key: Key) {
    decision.created && IsMaster(decision.row) && KeyOf(decision.row) == key
  }

  /** Everything that was there still is. */
  ghost predicate EntitiesKept(catalog: Catalog, after: Catalog) {
    && after.prices == catalog.prices && catalog.next <= after.next
    && (forall key | key in catalog.entities :: key in after.entities && after.entities[key] == catalog.entities[key])
  }

  /** The new master rows are there. */
  ghost predicate MastersMade(catalog: Catalog, decisions: seq<Decision>, n: nat, after: Catalog)
    requires n <= |decisions|
  {
    forall i: nat | i < n && decisions[i].created && IsMaster(decisions[i].row) ::
      var key := KeyOf(decisions[i].row);
      key in after.entities && after.entities[key].id >= catalog.next
      && after.entities[key] == EntityOf(decisions[i].row, after.entities[key].id)
  }

  /** Nothing else is. */
  ghost predicate OnlyMasters(catalog: Catalog, decisions: seq<Decision>, n: nat, after: Catalog)
    requires n <= |decisions|
  {
    forall key | key in after.entities && key !in catalog.entities :: exists i: nat ::
        i < n && Creates(decisions[i], key)
  }

  ghost predicate MastersCreated(catalog: Catalog, decisions: seq<Decision>, n: nat, after: Catalog)
    requires n <= |decisions|
  {
    && EntitiesKept(catalog, after) && MastersMade(catalog, decisions, n, after)
        && OnlyMasters(catalog, decisions, n, after)
    && CatalogOk(after)
  }

  /** The decisions are about different things, and no new master row is there yet. */
  ghost predicate Fresh(catalog: Catalog, decisions: seq<Decision>) {
    && (forall i: nat | i < |decisions| && decisions[i].created && IsMaster(decisions[i].row) ::
          KeyOf(decisions[i].row) !in catalog.entities)
    && (forall i: nat, j: nat | i < j < |decisions| :: KeyOf(decisions[i].row) != KeyOf(decisions[j].row))
  }

  lemma DecidedIsFresh(data: Data, rows: seq<ImportRow>, decisions: seq<Decision>)
    requires Decided(data, rows, decisions)
    ensures Fresh(data.catalog, decisions)
  {
    forall i: nat | i < |decisions| && decisions[i].created && IsMaster(decisions[i].row)
      ensures KeyOf(decisions[i].row) !in data.catalog.entities
    {
      assert decisions[i].row == rows[i];
    }
    forall i: nat, j: nat | i < j < |decisions| ensures KeyOf(decisions[i].row) != KeyOf(decisions[j].row) {
      assert decisions[i].row == rows[i] && decisions[j].row == rows[j];
    }
  }

  /** The columns can hold every row to be created. */
  ghost predicate AllStorable(decisions: seq<Decision>, n: nat)
    requires n <= |decisions|
  {
    forall i: nat | i < n && decisions[i].created :: Storable(decisions[i].row)
  }

  /** A row to be created is neither there nor created by an earlier row. */
  lemma KeyIsNew(catalog: Catalog, decisions: seq<Decision>, n: nat, before: Catalog)
    requires Fresh(catalog, decisions) && n < |decisions| && OnlyMasters(catalog, decisions, n, before)
    requires decisions[n].created && IsMaster(decisions[n].row)
    ensures KeyOf(decisions[n].row) !in before.entities
  {
    var key := KeyOf(decisions[n].row);
    forall i: nat | i < n ensures !Creates(decisions[i], key) {
    }
  }

  lemma InsertOnly(catalog: Catalog, decisions: seq<Decision>, n: nat, before: Catalog, after: Catalog)
    requires n < |decisions| && OnlyMasters(catalog, decisions, n, before)
    requires forall key | key in after.entities && key !in before.entities :: Creates(decisions[n], key)
    ensures OnlyMasters(catalog, decisions, n + 1, after)
  {
    forall key | key in after.entities && key !in catalog.entities
      ensures exists i: nat :: i < n + 1 && Creates(decisions[i], key)
    {
      if key !in before.entities {
        assert Creates(decisions[n], key);
      } else {
        var i: nat :| i < n && Creates(decisions[i], key);
        assert i < n + 1 && Creates(decisions[i], key);
      }
    }
  }

  lemma InsertCatalogOk(before: Catalog, key: Key, row: ImportRow)
    requires CatalogOk(before) && key !in before.entities
    ensures CatalogOk(before.(entities := before.entities[key := EntityOf(row, before.next)], next := before.next + 1))
  {
  }

  lemma InsertMade(catalog: Catalog, decisions: seq<Decision>, n: nat, before: Catalog, after: Catalog)
    requires n < |decisions| && MastersMade(catalog, decisions, n, before) && catalog.next <= before.next
    requires KeyOf(decisions[n].row) !in before.entities
    requires after.entities == before.entities[KeyOf(decisions[n].row) := EntityOf(decisions[n].row, before.next)]
    ensures MastersMade(catalog, decisions, n + 1, after)
  {
  }

  lemma InsertMaster(catalog: Catalog, decisions: seq<Decision>, n: nat, before: Catalog)
    requires n < |decisions| && MastersCreated(catalog, decisions, n, before)
    requires decisions[n].created && IsMaster(decisions[n].row) && KeyOf(decisions[n].row) !in before.entities
    requires Storable(decisions[n].row)
    ensures MastersCreated(catalog, decisions, n + 1, CreateMaster(before, decisions[n]).value)
  {
    var key := KeyOf(decisions[n].row);
    var after := CreateMaster(before, decisions[n]).value;
    InsertOnly(catalog, decisions, n, before, after);
    InsertCatalogOk(before, key, decisions[n].row);
    InsertMade(catalog, decisions, n, before, after);
    assert EntitiesKept(catalog, after);
  }

  lemma SkipMaster(catalog: Catalog, decisions: seq<Decision>, n: nat, before: Catalog)
    requires n < |decisions| && MastersCreated(catalog, decisions, n, before)
    requires !decisions[n].created || !IsMaster(decisions[n].row)
    ensures MastersCreated(catalog, decisions, n + 1, before)
  {
    InsertOnly(catalog, decisions, n, before, before);
  }

  lemma {:induction false} MastersAreCreated(catalog: Catalog, decisions: seq<Decision>, n: nat)
    requires Fresh(catalog, decisions) && n <= |decisions| && CatalogOk(catalog) && AllStorable(decisions, n)
    ensures CreateMasters(catalog, decisions, n).Some?
    ensures MastersCreated(catalog, decisions, n, CreateMasters(catalog, decisions, n).value)
  {
    if n > 0 {
      MastersAreCreated(catalog, decisions, n - 1);
      var before := CreateMasters(catalog, decisions, n - 1).value;
      if decisions[n - 1].created && IsMaster(decisions[n - 1].row) {
        KeyIsNew(catalog, decisions, n - 1, before);
        InsertMaster(catalog, decisions, n - 1, before);
      } else {
        SkipMaster(catalog, decisions, n - 1, before);
      }
    }
  }

  // ---------- second pass ----------

  predicate IsNewPrice(decision: Decision) {
    decision.created && decision.row.recordType == Price
  }

  predicate IsNewStock(decision: Decision) {
    decision.created && decision.row.recordType == Stock
  }

  /** The new price refers to what is there, and is not there itself. */
  predicate PriceReady(data: Data, row: ImportRow) {
    && CustomerKey(row) in data.catalog.entities && ProductKey(row) in data.catalog.entities
    && KeyOf(row) !in data.catalog.prices && row.unitPrice.Some?
  }

  /** The new stock refers to what is there, and its SKU has no stock or an empty balance. */
  predicate StockReady(data: Data, row: ImportRow) {
    && SkuOf(data.catalog.entities, row).Some? && row.quantity.Some? && Storable(row)
    && (StockOf(data, row) == None || StockOf(data, row) == Some(Balance(0, 0)))
  }

  ghost predicate Ready(data: Data, decisions: seq<Decision>) {
    && CatalogOk(data.catalog)
    && (forall i: nat | i < |decisions| && IsNewPrice(decisions[i]) :: PriceReady(data, decisions[i].row))
    && (forall i: nat | i < |decisions| && IsNewStock(decisions[i]) :: StockReady(data, decisions[i].row))
    && (forall i: nat, j: nat | i < j < |decisions| :: KeyOf(decisions[i].row) != KeyOf(decisions[j].row))
  }

  /** Different stock rows are about different SKUs. */
  lemma SkusDiffer(catalog: Catalog, a: ImportRow, b: ImportRow)
    requires CatalogOk(catalog) && a.recordType == Stock && b.recordType == Stock && KeyOf(a) != KeyOf(b)
    requires SkuOf(catalog.entities, a).Some? && SkuOf(catalog.entities, b).Some?
    ensures SkuOf(catalog.entities, a) != SkuOf(catalog.entities, b)
  {
    if WarehouseKey(a) != WarehouseKey(b) {
      assert catalog.entities[WarehouseKey(a)].id != catalog.entities[WarehouseKey(b)].id;
    } else {
      assert catalog.entities[ProductKey(a)].id != catalog.entities[ProductKey(b)].id;
    }
  }

  ghost predicate PricesMade(data: Data, decisions: seq<Decision>, n: nat, after: Data)
    requires n <= |decisions|
  {
    && (forall key | key in data.catalog.prices ::
          key in after.catalog.prices && after.catalog.prices[key] == data.catalog.prices[key])
    && (forall i: nat | i < n && IsNewPrice(decisions[i]) ::
          && KeyOf(decisions[i].row) in after.catalog.prices && decisions[i].row.unitPrice.Some?
          && after.catalog.prices[KeyOf(decisions[i].row)] == PriceRow(decisions[i].row.unitPrice.value, true))
    && (forall key | key in after.catalog.prices && key !in data.catalog.prices ::
          exists i: nat :: i < n && IsNewPrice(decisions[i]) && KeyOf(decisions[i].row) == key)
  }

  /** Every new stock row's SKU has exactly its quantity. */
  ghost predicate StockMade(data: Data, decisions: seq<Decision>, n: nat, after: Data)
    requires n <= |decisions|
  {
    forall i: nat | i < n && IsNewStock(decisions[i]) ::
      && decisions[i].row.quantity.Some?
      && StockOf(after, decisions[i].row) == Some(Balance(decisions[i].row.quantity.value, 0))
  }

  /** No new stock row among the first `n` is about the SKU. */
  ghost predicate Untouched(data: Data, decisions: seq<Decision>, n: nat, k: Sku)
    requires n <= |decisions|
  {
    forall i: nat | i < n && IsNewStock(decisions[i]) :: SkuOf(data.catalog.entities, decisions[i].row) != Some(k)
  }

  ghost predicate SameAt(balances: map<Sku, Balance>, after: map<Sku, Balance>, k: Sku) {
    (k in after <==> k in balances) && BalanceOf(after, k) == BalanceOf(balances, k)
  }

  /** Every other balance is as it was. */
  ghost predicate OthersKept(data: Data, decisions: seq<Decision>, n: nat, after: Data)
    requires n <= |decisions|
  {
    forall k | Untouched(data, decisions, n, k) :: SameAt(data.db.balances, after.db.balances, k)
  }

  ghost predicate SameMasters(data: Data, after: Data) {
    && after.catalog.entities == data.catalog.entities && after.catalog.next == data.catalog.next
    && after.db == data.db.(balances := after.db.balances, movements := after.db.movements)
  }

  lemma PriceStep(data: Data, decisions: seq<Decision>, n: nat, before: Data)
    requires Ready(data, decisions) && n < |decisions| && SameMasters(data, before)
    requires PricesMade(data, decisions, n, before)
    ensures !IsNewStock(decisions[n]) ==> CreateDetail(before, decisions[n]).Some?
    ensures CreateDetail(before, decisions[n]).Some? ==>
              PricesMade(data, decisions, n + 1, CreateDetail(before, decisions[n]).value)
  {
    var row := decisions[n].row;
    if IsNewPrice(decisions[n]) {
      assert PriceReady(data, row);
      assert forall i: nat | i < n :: KeyOf(decisions[i].row) != KeyOf(row);
      var after := CreateDetail(before, decisions[n]).value;
      forall key | key in after.catalog.prices && key !in data.catalog.prices
        ensures exists i: nat :: i < n + 1 && IsNewPrice(decisions[i]) && KeyOf(decisions[i].row) == key
      {
        if key in before.catalog.prices {
          var i: nat :| i < n && IsNewPrice(decisions[i]) && KeyOf(decisions[i].row) == key;
          assert i < n + 1;
        } else {
          assert IsNewPrice(decisions[n]) && KeyOf(decisions[n].row) == key;
        }
      }
    }
  }

  /** The SKU of a new stock row is not that of an earlier one. */
  lemma SkuIsNew(data: Data, decisions: seq<Decision>, n: nat)
    requires Ready(data, decisions) && n < |decisions| && IsNewStock(decisions[n])
    ensures SkuOf(data.catalog.entities, decisions[n].row).Some?
    ensures Untouched(data, decisions, n, SkuOf(data.catalog.entities, decisions[n].row).value)
  {
    assert StockReady(data, decisions[n].row);
    forall i: nat | i < n && IsNewStock(decisions[i])
      ensures SkuOf(data.catalog.entities, decisions[i].row) != SkuOf(data.catalog.entities, decisions[n].row)
    {
      assert StockReady(data, decisions[i].row);
      SkusDiffer(data.catalog, decisions[i].row, decisions[n].row);
    }
  }

  lemma PutStockAt(db: Db, k: Sku, quantity: nat, x: Sku)
    requires k in db.balances ==> db.balances[k] == Balance(0, 0)
    ensures var balances := PutStock(db, k, quantity).balances;
            && k in balances && balances[k] == Balance(quantity, 0)
            && (x != k ==> SameAt(db.balances, balances, x))
  {
  }

  lemma StockStep(data: Data, decisions: seq<Decision>, n: nat, before: Data)
    requires Ready(data, decisions) && n < |decisions| && SameMasters(data, before)
    requires StockMade(data, decisions, n, before) && OthersKept(data, decisions, n, before)
    requires IsNewStock(decisions[n])
    ensures CreateDetail(before, decisions[n]).Some?
    ensures var after := CreateDetail(before, decisions[n]).value;
            StockMade(data, decisions, n + 1, after) && OthersKept(data, decisions, n + 1, after)
  {
    var row := decisions[n].row;
    SkuIsNew(data, decisions, n);
    assert StockReady(data, row);
    var k, after := SkuOf(data.catalog.entities, row).value, CreateDetail(before, decisions[n]).value;
    assert SameAt(data.db.balances, before.db.balances, k);
    forall i: nat | i < n && IsNewStock(decisions[i])
      ensures StockOf(after, decisions[i].row) == StockOf(before, decisions[i].row)
    {
      var x := SkuOf(data.catalog.entities, decisions[i].row).value;
      PutStockAt(before.db, k, row.quantity.value, x);
    }
    PutStockAt(before.db, k, row.quantity.value, k);
    forall x | Untouched(data, decisions, n + 1, x) ensures SameAt(data.db.balances, after.db.balances, x) {
      assert Untouched(data, decisions, n, x);
      PutStockAt(before.db, k, row.quantity.value, x);
    }
  }

  ghost predicate DetailsCreated(data: Data, decisions: seq<Decision>, n: nat, after: Data)
    requires n <= |decisions|
  {
    && SameMasters(data, after) && PricesMade(data, decisions, n, after)
    && StockMade(data, decisions, n, after) && OthersKept(data, decisions, n, after)
  }

  lemma DetailStep(data: Data, decisions: seq<Decision>, n: nat, before: Data)
    requires Ready(data, decisions) && n < |decisions| && DetailsCreated(data, decisions, n, before)
    ensures CreateDetail(before, decisions[n]).Some?
    ensures DetailsCreated(data, decisions, n + 1, CreateDetail(before, decisions[n]).value)
  {
    PriceStep(data, decisions, n, before);
    if IsNewStock(decisions[n]) {
      StockStep(data, decisions, n, before);
    } else {
      forall x | Untouched(data, decisions, n + 1, x) ensures Untouched(data, decisions, n, x) {
      }
    }
  }

  lemma DetailsStart(data: Data, decisions: seq<Decision>)
    ensures DetailsCreated(data, decisions, 0, data)
  {
  }

  ghost predicate DetailsDone(data: Data, decisions: seq<Decision>, n: nat)
    requires n <= |decisions|
  {
    CreateDetails(data, decisions, n).Some?
        && DetailsCreated(data, decisions, n, CreateDetails(data, decisions, n).value)
  }

  lemma DetailsOn(data: Data, decisions: seq<Decision>, n: nat)
    requires Ready(data, decisions) && n < |decisions| && DetailsDone(data, decisions, n)
    ensures DetailsDone(data, decisions, n + 1)
  {
    DetailStep(data, decisions, n, CreateDetails(data, decisions, n).value);
  }

  lemma {:induction false} DetailsAreCreated(data: Data, decisions: seq<Decision>, n: nat)
    requires Ready(data, decisions) && n <= |decisions|
    ensures DetailsDone(data, decisions, n)
  {
    if n == 0 {
      DetailsStart(data, decisions);
    } else {
      DetailsAreCreated(data, decisions, n - 1);
      DetailsOn(data, decisions, n - 1);
    }
  }

  // ---------- from the analysis to the second pass ----------

  /** Whatever the analysis took to be known is there after the first pass. */
  lemma KnownExists(data: Data, rows: seq<ImportRow>, decisions: seq<Decision>, after: Catalog, key: Key)
    requires Decided(data, rows, decisions) && MastersCreated(data.catalog, decisions, |decisions|, after)
    requires key in KnownKeys(data.catalog, rows, |rows|)
    ensures key in after.entities
  {
    KnownAre(data.catalog, rows, |rows|, key);
    if key !in data.catalog.entities {
      var i: nat :| i < |rows| && IsMaster(rows[i]) && KeyOf(rows[i]) == key;
      assert decisions[i].row == rows[i];
      assert decisions[i].created;
    }
  }

  /** A row that was not there before the first pass has a new identifier, which no balance can have. */
  lemma NewIsUnstocked(data: Data, decisions: seq<Decision>, after: Catalog, key: Key)
    requires MastersCreated(data.catalog, decisions, |decisions|, after)
    requires key in after.entities && key !in data.catalog.entities
    ensures after.entities[key].id >= data.catalog.next
  {
    var i: nat :| i < |decisions| && Creates(decisions[i], key);
    assert KeyOf(decisions[i].row) == key;
  }

  lemma StockStays(data: Data, decisions: seq<Decision>, after: Catalog, row: ImportRow)
    requires DataOk(data) && MastersCreated(data.catalog, decisions, |decisions|, after)
    requires WarehouseKey(row) in after.entities && ProductKey(row) in after.entities
    ensures StockOf(data.(catalog := after), row) == StockOf(data, row)
  {
    if WarehouseKey(row) !in data.catalog.entities {
      NewIsUnstocked(data, decisions, after, WarehouseKey(row));
    }
    if ProductKey(row) !in data.catalog.entities {
      NewIsUnstocked(data, decisions, after, ProductKey(row));
    }
  }

  lemma NewPriceIsReady(data: Data, rows: seq<ImportRow>, decisions: seq<Decision>, after: Catalog, i: nat)
    requires DataOk(data) && Decided(data, rows, decisions)
    requires MastersCreated(data.catalog, decisions, |decisions|, after)
    requires i < |decisions| && IsNewPrice(decisions[i])
    ensures PriceReady(data.(catalog := after), decisions[i].row)
  {
    var row := rows[i];
    assert decisions[i].row == row && Judge(data, KnownKeys(data.catalog, rows, |rows|), row) ==
        Success(decisions[i].created);
    assert FieldError(row).None?;
    KnownExists(data, rows, decisions, after, CustomerKey(row));
    KnownExists(data, rows, decisions, after, ProductKey(row));
  }

  lemma NewStockIsReady(data: Data, rows: seq<ImportRow>, decisions: seq<Decision>, after: Catalog, i: nat)
    requires DataOk(data) && Decided(data, rows, decisions)
    requires MastersCreated(data.catalog, decisions, |decisions|, after)
    requires i < |decisions| && IsNewStock(decisions[i]) && Storable(decisions[i].row)
    ensures StockReady(data.(catalog := after), decisions[i].row)
  {
    var row := rows[i];
    assert decisions[i].row == row && Judge(data, KnownKeys(data.catalog, rows, |rows|), row) ==
        Success(decisions[i].created);
    assert FieldError(row).None?;
    KnownExists(data, rows, decisions, after, WarehouseKey(row));
    KnownExists(data, rows, decisions, after, ProductKey(row));
    StockStays(data, decisions, after, row);
  }

  lemma ReadyAfterMasters(data: Data, rows: seq<ImportRow>, decisions: seq<Decision>, after: Catalog)
    requires DataOk(data) && Decided(data, rows, decisions)
    requires MastersCreated(data.catalog, decisions, |decisions|, after)
    requires AllStorable(decisions, |decisions|)
    ensures Ready(data.(catalog := after), decisions)
  {
    forall i: nat | i < |decisions|
      ensures IsNewPrice(decisions[i]) ==> PriceReady(data.(catalog := after), decisions[i].row)
      ensures IsNewStock(decisions[i]) ==> StockReady(data.(catalog := after), decisions[i].row)
    {
      if IsNewPrice(decisions[i]) {
        NewPriceIsReady(data, rows, decisions, after, i);
      } else if IsNewStock(decisions[i]) {
        NewStockIsReady(data, rows, decisions, after, i);
      }
    }
    DecidedIsFresh(data, rows, decisions);
  }

  // ---------- the whole import ----------

  /** How an import went: its decisions, the catalog after the first pass, and the data after the second. */
  ghost predicate WentThrough(data: Data, rows: seq<ImportRow>, decisions: seq<Decision>, catalog: Catalog,
                              after: Data) {
    && DataOk(data) && Decided(data, rows, decisions)
    && MastersCreated(data.catalog, decisions, |decisions|, catalog)
    && Ready(data.(catalog := catalog), decisions)
    && DetailsCreated(data.(catalog := catalog), decisions, |decisions|, after)
  }

  lemma {:induction false} MadeWasStorable(catalog: Catalog, decisions: seq<Decision>, n: nat)
    requires n <= |decisions| && CreateMasters(catalog, decisions, n).Some?
    ensures forall i: nat | i < n && decisions[i].created && IsMaster(decisions[i].row) :: Storable(decisions[i].row)
  {
    if n > 0 {
      MadeWasStorable(catalog, decisions, n - 1);
    }
  }

  lemma {:induction false} StockedWasStorable(data: Data, decisions: seq<Decision>, n: nat)
    requires n <= |decisions| && CreateDetails(data, decisions, n).Some?
    ensures forall i: nat | i < n && decisions[i].created && !IsMaster(decisions[i].row) :: Storable(decisions[i].row)
  {
    if n > 0 {
      StockedWasStorable(data, decisions, n - 1);
    }
  }

  /** A file the analysis has no objection to is imported exactly when the columns can hold its new rows: no insertion
      violates a UNIQUE constraint or misses what it refers to. */
  lemma ImportSucceeds(data: Data, rows: seq<ImportRow>)
    requires DataOk(data) && Accepted(rows) && Analyze(data, rows).errors == []
    ensures var decisions := Analyze(data, rows).decisions;
            && (Apply(data, rows).Success? <==> AllStorable(decisions, |decisions|))
            && (Apply(data, rows).Success? ==>
                  && CreateMasters(data.catalog, decisions, |decisions|).Some?
                  && WentThrough(data, rows, decisions, CreateMasters(data.catalog, decisions, |decisions|).value,
                                 Apply(data, rows).value))
  {
    var decisions := Analyze(data, rows).decisions;
    DecisionsAre(data, KnownKeys(data.catalog, rows, |rows|), rows, |rows|);
    if AllStorable(decisions, |decisions|) {
      DecidedIsFresh(data, rows, decisions);
      MastersAreCreated(data.catalog, decisions, |decisions|);
      var catalog := CreateMasters(data.catalog, decisions, |decisions|).value;
      ReadyAfterMasters(data, rows, decisions, catalog);
      DetailsAreCreated(data.(catalog := catalog), decisions, |decisions|);
    } else if Apply(data, rows).Success? {
      MadeWasStorable(data.catalog, decisions, |decisions|);
      StockedWasStorable(data.(catalog := CreateMasters(data.catalog, decisions, |decisions|).value), decisions,
                         |decisions|);
    }
  }

  // ---------- sent again ----------

  lemma SkippedStockStays(data: Data, rows: seq<ImportRow>, decisions: seq<Decision>, catalog: Catalog, after: Data,
                          i: nat)
    requires WentThrough(data, rows, decisions, catalog, after) && i < |decisions|
    requires decisions[i].row.recordType == Stock && !decisions[i].created
    requires SkuOf(catalog.entities, decisions[i].row).Some?
    ensures StockOf(after, decisions[i].row) == StockOf(data.(catalog := catalog), decisions[i].row)
  {
    var middle, k := data.(catalog := catalog), SkuOf(catalog.entities, decisions[i].row).value;
    forall j: nat | j < |decisions| && IsNewStock(decisions[j])
      ensures SkuOf(catalog.entities, decisions[j].row) != Some(k)
    {
      assert StockReady(middle, decisions[j].row);
      assert KeyOf(decisions[j].row) != KeyOf(decisions[i].row);
      SkusDiffer(catalog, decisions[j].row, decisions[i].row);
    }
    assert Untouched(middle, decisions, |decisions|, k);
    assert SameAt(data.db.balances, after.db.balances, k);
  }

  lemma StockIsThere(data: Data, rows: seq<ImportRow>, decisions: seq<Decision>, catalog: Catalog, after: Data, i: nat)
    requires WentThrough(data, rows, decisions, catalog, after) && i < |rows| && rows[i].recordType == Stock
    ensures WarehouseKey(rows[i]) in catalog.entities && ProductKey(rows[i]) in catalog.entities
    ensures rows[i].quantity.Some? && StockOf(after, rows[i]) == Some(Balance(rows[i].quantity.value, 0))
  {
    var row, known := rows[i], KnownKeys(data.catalog, rows, |rows|);
    assert decisions[i].row == row && Judge(data, known, row) == Success(decisions[i].created);
    KnownExists(data, rows, decisions, catalog, WarehouseKey(row));
    KnownExists(data, rows, decisions, catalog, ProductKey(row));
    if !decisions[i].created {
      StockStays(data, decisions, catalog, row);
      SkippedStockStays(data, rows, decisions, catalog, after, i);
    }
  }

  lemma PriceIsThere(data: Data, rows: seq<ImportRow>, decisions: seq<Decision>, catalog: Catalog, after: Data, i: nat)
    requires WentThrough(data, rows, decisions, catalog, after) && i < |rows| && rows[i].recordType == Price
    ensures CustomerKey(rows[i]) in catalog.entities && ProductKey(rows[i]) in catalog.entities
    ensures rows[i].unitPrice.Some? && KeyOf(rows[i]) in after.catalog.prices
    ensures after.catalog.prices[KeyOf(rows[i])] == PriceRow(rows[i].unitPrice.value, true)
  {
    var row, known := rows[i], KnownKeys(data.catalog, rows, |rows|);
    assert decisions[i].row == row && Judge(data, known, row) == Success(decisions[i].created);
    KnownExists(data, rows, decisions, catalog, CustomerKey(row));
    KnownExists(data, rows, decisions, catalog, ProductKey(row));
  }

  lemma MasterIsThere(data: Data, rows: seq<ImportRow>, decisions: seq<Decision>, catalog: Catalog, i: nat)
    requires Decided(data, rows, decisions) && MastersCreated(data.catalog, decisions, |decisions|, catalog)
    requires i < |rows| && IsMaster(rows[i])
    ensures KeyOf(rows[i]) in catalog.entities
    ensures var e := catalog.entities[KeyOf(rows[i])];
            e.active && e.name == rows[i].name && (rows[i].recordType == Product ==> e.saleUnit == rows[i].saleUnit)
  {
    assert decisions[i].row == rows[i];
    assert Judge(data, KnownKeys(data.catalog, rows, |rows|), rows[i]) == Success(decisions[i].created);
  }

  /** Every row of an imported file is found there as it stands in the file. */
  lemma RowIsThere(data: Data, rows: seq<ImportRow>, decisions: seq<Decision>, catalog: Catalog, after: Data, i: nat)
    requires WentThrough(data, rows, decisions, catalog, after) && i < |rows|
    ensures Judge(after, KnownKeys(after.catalog, rows, |rows|), rows[i]) == Success(false)
  {
    var row, known := rows[i], KnownKeys(after.catalog, rows, |rows|);
    KnownAre(after.catalog, rows, |rows|, CustomerKey(row));
    KnownAre(after.catalog, rows, |rows|, WarehouseKey(row));
    KnownAre(after.catalog, rows, |rows|, ProductKey(row));
    if row.recordType == Price {
      PriceIsThere(data, rows, decisions, catalog, after, i);
    } else if row.recordType == Stock {
      StockIsThere(data, rows, decisions, catalog, after, i);
    } else {
      MasterIsThere(data, rows, decisions, catalog, i);
    }
  }

  lemma {:induction false} AllSkipped(data: Data, known: set<Key>, rows: seq<ImportRow>, n: nat)
    requires n <= |rows| && forall i: nat | i < n :: Judge(data, known, rows[i]) == Success(false)
    ensures var analysis := AnalyzeRows(data, known, rows, n);
            && analysis.errors == [] && |analysis.decisions| == n
            && forall i: nat | i < n :: analysis.decisions[i] == Decision(rows[i], false)
  {
    if n > 0 {
      AllSkipped(data, known, rows, n - 1);
    }
  }

  /** An imported file can be sent again: analysing the same rows reports no error and marks every one as skipped. */
  lemma ImportIsIdempotent(data: Data, rows: seq<ImportRow>)
    requires DataOk(data) && Accepted(rows) && Apply(data, rows).Success?
    ensures var again := Analyze(Apply(data, rows).value, rows);
            && again.errors == [] && |again.decisions| == |rows|
            && forall i: nat | i < |rows| :: again.decisions[i] == Decision(rows[i], false)
  {
    ImportSucceeds(data, rows);
    var decisions, after := Analyze(data, rows).decisions, Apply(data, rows).value;
    var catalog := CreateMasters(data.catalog, decisions, |decisions|).value;
    forall i: nat | i < |rows| ensures Judge(after, KnownKeys(after.catalog, rows, |rows|), rows[i]) == Success(false) {
      RowIsThere(data, rows, decisions, catalog, after, i);
    }
    AllSkipped(after, KnownKeys(after.catalog, rows, |rows|), rows, |rows|);
  }

  // ---------- the stock ledger ----------

  lemma PutStockBook(db: Db, k: Sku, quantity: nat, x: Sku)
    requires BalanceOk(db.balances, db.lines, db.movements, x)
    requires k in db.balances ==> db.balances[k] == Balance(0, 0)
    ensures var after := PutStock(db, k, quantity); BalanceOk(after.balances, db.lines, after.movements, x)
  {
    var after := PutStock(db, k, quantity);
    if quantity > 0 {
      SumAppend(db.movements, Movement(k, Adjusted, quantity), DeltaAt(x));
    }
    assert BalanceOf(after.balances, x) == if x == k then Balance(quantity, 0) else BalanceOf(db.balances, x);
  }

  lemma PutStockBooks(db: Db, k: Sku, quantity: nat)
    requires BalancesOk(db.balances, db.lines, db.movements)
    requires k in db.balances ==> db.balances[k] == Balance(0, 0)
    ensures var after := PutStock(db, k, quantity); BalancesOk(after.balances, db.lines, after.movements)
  {
    var after := PutStock(db, k, quantity);
    forall x ensures BalanceOk(after.balances, db.lines, after.movements, x) {
      assert BalanceOk(db.balances, db.lines, db.movements, x);
      PutStockBook(db, k, quantity, x);
    }
  }

  lemma {:induction false} DetailsBook(data: Data, decisions: seq<Decision>, n: nat)
    requires Ready(data, decisions) && n <= |decisions|
    requires BalancesOk(data.db.balances, data.db.lines, data.db.movements)
    ensures CreateDetails(data, decisions, n).Some?
    ensures var db := CreateDetails(data, decisions, n).value.db; BalancesOk(db.balances, db.lines, db.movements)
  {
    DetailsAreCreated(data, decisions, n);
    if n > 0 {
      DetailsBook(data, decisions, n - 1);
      if IsNewStock(decisions[n - 1]) {
        var before := CreateDetails(data, decisions, n - 1).value;
        DetailsAreCreated(data, decisions, n - 1);
        NextStockIsEmpty(data, decisions, n - 1, before);
        PutStockBooks(before.db, SkuOf(data.catalog.entities, decisions[n - 1].row).value,
                      decisions[n - 1].row.quantity.value);
      }
    }
  }

  lemma NextStockIsEmpty(data: Data, decisions: seq<Decision>, n: nat, before: Data)
    requires Ready(data, decisions) && n < |decisions| && IsNewStock(decisions[n])
    requires DetailsCreated(data, decisions, n, before)
    ensures SkuOf(data.catalog.entities, decisions[n].row).Some? && decisions[n].row.quantity.Some?
    ensures var k := SkuOf(data.catalog.entities, decisions[n].row).value;
            k in before.db.balances ==> before.db.balances[k] == Balance(0, 0)
  {
    SkuIsNew(data, decisions, n);
    assert StockReady(data, decisions[n].row);
    var k := SkuOf(data.catalog.entities, decisions[n].row).value;
    assert SameAt(data.db.balances, before.db.balances, k);
  }

  /** Stock that an import brings is booked like any other: each SKU still has on hand what its movements add up to. */
  lemma ImportKeepsLedger(data: Data, rows: seq<ImportRow>)
    requires DataOk(data) && Accepted(rows) && Apply(data, rows).Success?
    requires BalancesOk(data.db.balances, data.db.lines, data.db.movements)
    ensures var db := Apply(data, rows).value.db; BalancesOk(db.balances, db.lines, db.movements)
  {
    ImportSucceeds(data, rows);
    var decisions := Analyze(data, rows).decisions;
    var catalog := CreateMasters(data.catalog, decisions, |decisions|).value;
    DetailsBook(data.(catalog := catalog), decisions, |decisions|);
  }

  // ---------- imports and stock counts ----------

  /** The file stocks a SKU while it is being counted. */
  ghost predicate StocksCounted(data: Data, decisions: seq<Decision>) {
    exists i: nat :: i < |decisions| && StocksOneCounted(data, decisions[i])
  }

  predicate StocksOneCounted(data: Data, decision: Decision) {
    && IsNewStock(decision) && decision.row.quantity.Some? && decision.row.quantity.value > 0
    && SkuOf(data.catalog.entities, decision.row).Some?
    && UnderCount(data.db.counts, SkuOf(data.catalog.entities, decision.row).value)
  }

  lemma CountedStaysCounted(data: Data, decisions: seq<Decision>, after: Data, c: Id)
    requires Ready(data, decisions) && DetailsCreated(data, decisions, |decisions|, after)
    requires CountsOk(data.db.counts, data.db.balances, data.db.lines) && c < |data.db.counts|
    ensures data.db.counts[c].sku in after.db.balances
    ensures data.db.counts[c].status == Counting && !StocksCounted(data, decisions) ==>
              after.db.balances[data.db.counts[c].sku] == data.db.balances[data.db.counts[c].sku]
  {
    var k := data.db.counts[c].sku;
    if Untouched(data, decisions, |decisions|, k) {
      assert SameAt(data.db.balances, after.db.balances, k);
    } else {
      var i: nat :| i < |decisions| && IsNewStock(decisions[i])
          && SkuOf(data.catalog.entities, decisions[i].row) == Some(k);
      assert StockReady(data, decisions[i].row);
      assert data.db.counts[c].status == Counting && !StocksCounted(data, decisions) ==>
          !StocksOneCounted(data, decisions[i]);
    }
  }

  /** The import is the one writer that does not look for a running count: it breaks the freeze exactly when it stocks a
      SKU that is being counted. Everything else that holds of counts goes on holding. */
  lemma ImportKeepsFreezeUnless(data: Data, decisions: seq<Decision>, after: Data)
    requires Ready(data, decisions) && DetailsCreated(data, decisions, |decisions|, after)
    requires CountsOk(data.db.counts, data.db.balances, data.db.lines)
    ensures CountsOk(after.db.counts, after.db.balances, after.db.lines)
    ensures SnapshotsOk(data.db.counts, data.db.balances) ==>
              (SnapshotsOk(after.db.counts, after.db.balances) <==> !StocksCounted(data, decisions))
  {
    forall c: Id | c < |data.db.counts|
      ensures data.db.counts[c].sku in after.db.balances
      ensures data.db.counts[c].status == Counting && !StocksCounted(data, decisions) ==>
                after.db.balances[data.db.counts[c].sku] == data.db.balances[data.db.counts[c].sku]
    {
      CountedStaysCounted(data, decisions, after, c);
    }
    if StocksCounted(data, decisions) && SnapshotsOk(data.db.counts, data.db.balances) {
      var i: nat :| i < |decisions| && StocksOneCounted(data, decisions[i]);
      var k := SkuOf(data.catalog.entities, decisions[i].row).value;
      var c :| 0 <= c < |data.db.counts| && data.db.counts[c].status == Counting && data.db.counts[c].sku == k;
      assert StockReady(data, decisions[i].row);
      assert data.db.balances[k] == data.db.counts[c].snapshot;
      assert after.db.balances[k].onHand > 0;
    }
  }

  /** An import keeps the whole stock invariant; the freeze stays unless it stocks a SKU under count. */
  lemma ImportKeepsStock(data: Data, rows: seq<ImportRow>)
    requires DataOk(data) && Accepted(rows) && Apply(data, rows).Success? && StockInv(data.db)
    ensures StockInv(Apply(data, rows).value.db)
    ensures var decisions := Analyze(data, rows).decisions;
            CreateMasters(data.catalog, decisions, |decisions|).Some?
    ensures var decisions, db := Analyze(data, rows).decisions, Apply(data, rows).value.db;
            var catalog := CreateMasters(data.catalog, decisions, |decisions|).value;
            SnapshotsOk(data.db.counts, data.db.balances) ==>
              (SnapshotsOk(db.counts, db.balances) <==> !StocksCounted(data.(catalog := catalog), decisions))
  {
    ImportSucceeds(data, rows);
    ImportKeepsLedger(data, rows);
    var decisions := Analyze(data, rows).decisions;
    var catalog := CreateMasters(data.catalog, decisions, |decisions|).value;
    ImportKeepsFreezeUnless(data.(catalog := catalog), decisions, Apply(data, rows).value);
  }

  // ---------- files ----------

  /** What an import leaves can be imported into again. */
  lemma ImportKeepsData(data: Data, rows: seq<ImportRow>)
    requires DataOk(data) && Accepted(rows) && Apply(data, rows).Success?
    ensures DataOk(Apply(data, rows).value)
  {
    ImportSucceeds(data, rows);
    var decisions, after := Analyze(data, rows).decisions, Apply(data, rows).value;
    var middle := data.(catalog := CreateMasters(data.catalog, decisions, |decisions|).value);
    forall key | key in after.catalog.prices
      ensures Key(Customer, key.first, "") in after.catalog.entities
      ensures Key(Product, key.second, "") in after.catalog.entities
    {
      if key !in middle.catalog.prices {
        var i: nat :| i < |decisions| && IsNewPrice(decisions[i]) && KeyOf(decisions[i].row) == key;
        assert PriceReady(middle, decisions[i].row);
      }
    }
    forall k | k in after.db.balances ensures k.warehouse < after.catalog.next && k.product < after.catalog.next {
      if Untouched(middle, decisions, |decisions|, k) {
        assert SameAt(middle.db.balances, after.db.balances, k);
      }
    }
  }

  /** Every row of an imported file is counted once, as created or as skipped. */
  lemma BatchAddsUp(data: Data, rows: seq<ImportRow>)
    requires Analyze(data, rows).errors == []
    ensures var batch := BatchOf(Analyze(data, rows).decisions); batch.created + batch.skipped == batch.total == |rows|
  {
    DecisionsAre(data, KnownKeys(data.catalog, rows, |rows|), rows, |rows|);
  }

  lemma {:induction false} SkippedCountNothing(decisions: seq<Decision>)
    requires forall i: nat | i < |decisions| :: !decisions[i].created
    ensures CountCreated(decisions) == 0
  {
    if decisions != [] {
      SkippedCountNothing(decisions[..|decisions| - 1]);
    }
  }

  /** The analysis accepts the file, and the columns cannot hold one of the rows it would create. */
  ghost predicate Overflows(data: Data, rows: seq<ImportRow>) {
    Analyze(data, rows).errors == []
    && exists i: nat :: i < |Analyze(data, rows).decisions| && OverflowsAt(Analyze(data, rows).decisions[i])
  }

  predicate OverflowsAt(decision: Decision) {
    decision.created && !Storable(decision.row)
  }

  /** The database refuses an insertion exactly when its columns cannot hold a row the analysis would create. */
  lemma ViolatesExactly(site: Site, content: string, rows: seq<ImportRow>)
    requires DataOk(site.data) && Accepted(rows)
    ensures ImportRows(site, content, rows).1 == Refused(Violation) <==>
              content !in site.batches && Overflows(site.data, rows)
    ensures DataOk(ImportRows(site, content, rows).0.data)
  {
    if Analyze(site.data, rows).errors == [] {
      ImportSucceeds(site.data, rows);
      var decisions := Analyze(site.data, rows).decisions;
      assert (exists i: nat :: i < |decisions| && OverflowsAt(decisions[i])) <==> !AllStorable(decisions, |decisions|);
      if Apply(site.data, rows).Success? {
        ImportKeepsData(site.data, rows);
      }
    }
  }

  /** Another file with the same rows, sent after the first, creates nothing; the same file is answered as a
      duplicate. */
  lemma ImportTwice(site: Site, content: string, other: string, rows: seq<ImportRow>)
    requires DataOk(site.data) && Accepted(rows) && content !in site.batches
    requires ImportRows(site, content, rows).1.Imported?
    ensures var (after, answer) := ImportRows(site, content, rows);
            && ImportRows(after, content, rows) == (after, Imported(answer.batch, true))
            && (other !in after.batches ==>
                ImportRows(after, other, rows).1 == Imported(Batch(|rows|, 0, |rows|), false))
  {
    ImportIsIdempotent(site.data, rows);
    ImportKeepsData(site.data, rows);
    var (after, _) := ImportRows(site, content, rows);
    SkippedCountNothing(Analyze(after.data, rows).decisions);
    ImportSucceeds(after.data, rows);
  }

  /** The rows of a file without errors. */
  predicate IsReadable(upper: string -> string, content: string) {
    Parse(upper, content, true).Success? && Parse(upper, content, true).value.errors == []
  }

  /** The same for files as they arrive: the parser sees to all but what the columns can hold. */
  lemma FilesViolateExactly(upper: string -> string, site: Site, content: string)
    requires DataOk(site.data)
    ensures ImportFile(upper, site, content).1 == Refused(Violation) <==>
              && IsReadable(upper, content) && content !in site.batches
              && Overflows(site.data, Parse(upper, content, true).value.rows)
    ensures DataOk(ImportFile(upper, site, content).0.data)
  {
    if IsReadable(upper, content) {
      ParseAccepts(upper, content, true);
      ViolatesExactly(site, content, Parse(upper, content, true).value.rows);
    }
  }

  lemma ImportedAs(upper: string -> string, site: Site, content: string, rows: seq<ImportRow>)
    requires Parse(upper, content, true) == Success(Parsed(rows, [])) && content !in site.batches
    requires Apply(site.data, rows).Success?
    ensures var after := ImportFile(upper, site, content).0;
            after.data == Apply(site.data, rows).value && after.batches.Keys == site.batches.Keys + {content}
  {
  }
}
