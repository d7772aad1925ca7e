/** Two imports that one would not expect to go as they do: a quantity no integer column can hold, and stock for a SKU
    that is being counted. */
module ImportCases {
  import opened Wrappers
  import opened Tables
  import opened ImportParser
  import opened ImportService
  import opened ImportProofs
  import opened SiteRuns
  import opened StockFiles
  import Commands

  // ---------- what the import makes of it ----------

  const SHELF_W := Key(Warehouse, "W", "")

  const GOODS_P := Key(Product, "P", "")

  const CATALOG := Catalog(map[SHELF_W := Entity(0, "w", "", true), GOODS_P := Entity(1, "p", "box", true)], map[], 2)

  const PLACE := Sku(0, 1)

  lemma RowIsNew(data: Data, quantity: nat)
    requires data.catalog == CATALOG
    requires PLACE in data.db.balances ==> data.db.balances[PLACE] == Balance(0, 0) && quantity > 0
    ensures Analyze(data, [StockRow(quantity)]) == Analysis([Decision(StockRow(quantity), true)], [])
    ensures SkuOf(data.catalog.entities, StockRow(quantity)) == Some(PLACE)
  {
    var row := StockRow(quantity);
    var known := KnownKeys(data.catalog, [row], 1);
    assert KnownKeys(data.catalog, [row], 0) == CATALOG.entities.Keys;
    assert known == CATALOG.entities.Keys;
    assert Judge(data, known, row) == Success(true);
    assert AnalyzeRows(data, known, [row], 0) == Analysis([], []);
    assert AnalyzeRows(data, known, [row], 1) == Analysis([Decision(row, true)], []);
  }

  lemma RowIsImported(data: Data, quantity: nat)
    requires data.catalog == CATALOG
    requires PLACE in data.db.balances ==> data.db.balances[PLACE] == Balance(0, 0) && quantity > 0
    ensures ImportService.Apply(data, [StockRow(quantity)]) ==
              if quantity <= MAX_INTEGER then Success(data.(db := PutStock(data.db, PLACE, quantity)))
              else Failure(Violation)
  {
    var row := StockRow(quantity);
    RowIsNew(data, quantity);
    var decisions := [Decision(row, true)];
    assert CreateMasters(data.catalog, decisions, 0) == Some(data.catalog);
    assert CreateMasters(data.catalog, decisions, 1) == Some(data.catalog);
    assert CreateDetails(data, decisions, 0) == Some(data);
    assert CreateDetails(data, decisions, 1) == CreateDetail(data, decisions[0]);
  }

  // ---------- a quantity too large ----------

  const ENTERING := [Enter(SHELF_W, "w", "", true)] + [Enter(GOODS_P, "p", "box", true)]

  lemma OneMore(upper: string -> string, s: Running, steps: seq<Step>, step: Step)
    ensures Operate(upper, s, steps + [step]) == Advance(upper, Operate(upper, s, steps), step)
  {
    assert (steps + [step])[..|steps|] == steps;
  }

  const ENTERED := Running(Site(Data(CATALOG, EMPTY), map[]), map[])

  lemma MastersEntered(upper: string -> string)
    ensures Operate(upper, OPENING, ENTERING) == ENTERED
  {
    var first := Enter(SHELF_W, "w", "", true);
    assert Operate(upper, OPENING, []) == OPENING;
    OneMore(upper, OPENING, [], first);
    assert [] + [first] == [first];
    OneMore(upper, OPENING, [first], Enter(GOODS_P, "p", "box", true));
    assert Operate(upper, OPENING, ENTERING).site.data.catalog.entities == CATALOG.entities;
  }

  /** The parser and the analysis accept the file; the database does not. */
  lemma TooManyIsRefused(upper: string -> string)
    requires KeepsCapitals(upper)
    ensures var site, file := Operate(upper, OPENING, ENTERING).site, StockFile("3000000000");
            && IsReadable(upper, file)
            && Analyze(site.data, Parse(upper, file, true).value.rows).errors == []
            && ImportFile(upper, site, file).1 == Refused(Violation)
  {
    MastersEntered(upper);
    TooManyIsANumber();
    FileParses(upper, "3000000000");
    RowIsNew(ENTERED.site.data, 3000000000);
    RowIsImported(ENTERED.site.data, 3000000000);
  }

  // ---------- a running count ----------

  const COUNT := Commands.Call(0, 0, Commands.StartCount(PLACE))

  const COUNTED_AT_NOTHING := ENTERING + [Upload(StockFile("0"))] + [Command(COUNT)]

  const SHELVED := EMPTY.(balances := map[PLACE := Balance(0, 0)])

  const COUNTING_NOTHING := SHELVED.(counts := [Count(PLACE, Counting, Balance(0, 0), 0, 0)])

  /** Uploading the file stocks the place. */
  lemma UploadStocks(upper: string -> string, s: Running, digit: string, value: nat)
    requires KeepsCapitals(upper) && |digit| == 1 && '0' <= digit[0] <= '9' && value == digit[0] as int - '0' as int
    requires s.site.data.catalog == CATALOG && StockFile(digit) !in s.site.batches
    requires PLACE in s.site.data.db.balances ==> s.site.data.db.balances[PLACE] == Balance(0, 0) && value > 0
    ensures var after := Advance(upper, s, Upload(StockFile(digit)));
            && after.site.data == s.site.data.(db := PutStock(s.site.data.db, PLACE, value))
            && after.site.batches.Keys == s.site.batches.Keys + {StockFile(digit)}
            && after.results == s.results
  {
    DigitIsANumber(digit, value);
    FileParses(upper, digit);
    RowIsImported(s.site.data, value);
    ImportedAs(upper, s.site, StockFile(digit), [StockRow(value)]);
  }

  lemma NothingShelved(upper: string -> string)
    requires KeepsCapitals(upper)
    ensures var s := Operate(upper, OPENING, ENTERING + [Upload(StockFile("0"))]);
            s.site.data == Data(CATALOG, SHELVED) && s.site.batches.Keys == {StockFile("0")} && s.results == map[]
  {
    MastersEntered(upper);
    OneMore(upper, OPENING, ENTERING, Upload(StockFile("0")));
    UploadStocks(upper, ENTERED, "0", 0);
    assert PutStock(EMPTY, PLACE, 0) == SHELVED;
  }

  lemma CountCommits()
    ensures Commands.Apply(SHELVED, 0, Commands.StartCount(PLACE)) ==
              Done(COUNTING_NOTHING, CountStarted(0, Balance(0, 0)))
  {
  }

  lemma CountStarts(upper: string -> string, s: Running)
    requires s.site.data == Data(CATALOG, SHELVED) && s.results == map[]
    ensures var after := Advance(upper, s, Command(COUNT));
            after.site.data == Data(CATALOG, COUNTING_NOTHING) && after.site.batches == s.site.batches
  {
    CountCommits();
    assert CallOn(s, COUNT) == COUNT;
  }

  lemma NothingCounted(upper: string -> string)
    requires KeepsCapitals(upper)
    ensures var s := Operate(upper, OPENING, COUNTED_AT_NOTHING);
            s.site.data == Data(CATALOG, COUNTING_NOTHING) && s.site.batches.Keys == {StockFile("0")}
  {
    NothingShelved(upper);
    OneMore(upper, OPENING, ENTERING + [Upload(StockFile("0"))], Command(COUNT));
    CountStarts(upper, Operate(upper, OPENING, ENTERING + [Upload(StockFile("0"))]));
  }

  lemma FiveBreakFreeze()
    ensures FreezeHolds(Data(CATALOG, COUNTING_NOTHING))
    ensures !FreezeHolds(Data(CATALOG, PutStock(COUNTING_NOTHING, PLACE, 5)))
  {
    var d := PutStock(COUNTING_NOTHING, PLACE, 5);
    assert d.counts[0].status == Counting && d.balances[PLACE] == Balance(5, 0);
  }

  /** The count started from nothing, and five units are there before it is closed. */
  lemma StockArrivesDuringCount(upper: string -> string)
    requires KeepsCapitals(upper)
    ensures FreezeHolds(Operate(upper, OPENING, COUNTED_AT_NOTHING).site.data)
    ensures !FreezeHolds(Operate(upper, OPENING, COUNTED_AT_NOTHING + [Upload(StockFile("5"))]).site.data)
  {
    NothingCounted(upper);
    FilesDiffer(upper);
    OneMore(upper, OPENING, COUNTED_AT_NOTHING, Upload(StockFile("5")));
    UploadStocks(upper, Operate(upper, OPENING, COUNTED_AT_NOTHING), "5", 5);
    FiveBreakFreeze();
  }
}
