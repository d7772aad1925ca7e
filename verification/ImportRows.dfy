/** Import files of whole rows, stated on their cells: which column each field comes from, how numbers are read, and
    when a file has no errors. */
module ImportRows {
  import opened Wrappers
  import opened ImportParser
  import opened CsvExport
  import Csv

  // ---------- white space ----------

  predicate IsSpaces(text: string) {
    forall i | 0 <= i < |text| :: Csv.IsSpace(text[i])
  }

  predicate IsTight(text: string) {
    text != "" ==> !Csv.IsSpace(text[0]) && !Csv.IsSpace(text[|text| - 1])
  }

  /** The text is the cell with white space around it. */
  ghost predicate Pads(text: string, cell: string) {
    IsTight(cell) && exists i, j ::
      0 <= i <= j <= |text| && text[i..j] == cell && IsSpaces(text[..i]) && IsSpaces(text[j..])
  }

  lemma {:induction false} StartSkipped(text: string, i: nat)
    requires i <= |text| && IsSpaces(text[..i])
    ensures TrimStart(text) == TrimStart(text[i..])
  {
    if i > 0 {
      assert Csv.IsSpace(text[..i][0]);
      assert text[1..][..i - 1] == text[..i][1..] && text[1..][i - 1..] == text[i..];
      StartSkipped(text[1..], i - 1);
    } else {
      assert text[0..] == text;
    }
  }

  lemma {:induction false} EndSkipped(text: string, j: nat)
    requires j <= |text| && IsSpaces(text[j..])
    ensures TrimEnd(text) == TrimEnd(text[..j])
  {
    var last := |text| - 1;
    if j <= last {
      assert Csv.IsSpace(text[j..][last - j]);
      assert text[..last][j..] == text[j..][..last - j] && text[..last][..j] == text[..j];
      EndSkipped(text[..last], j);
    } else {
      assert text[..j] == text;
    }
  }

  lemma SpacesAreNothing(text: string)
    requires IsSpaces(text)
    ensures Clean(text) == ""
  {
    assert text[..|text|] == text;
    StartSkipped(text, |text|);
  }

  lemma TightStays(cell: string)
    requires IsTight(cell)
    ensures TrimStart(cell) == cell && TrimEnd(cell) == cell
  {
  }

  /** A tight cell with white space behind it. */
  lemma BehindIsTrimmed(text: string, cell: string, behind: string)
    requires IsTight(cell) && cell != "" && IsSpaces(behind) && text == cell + behind
    ensures TrimStart(text) == text && TrimEnd(text) == cell
  {
    assert text[0] == cell[0];
    assert text[..|cell|] == cell && text[|cell|..] == behind;
    EndSkipped(text, |cell|);
    TightStays(cell);
  }

  lemma PaddedIsClean(text: string, cell: string)
    requires Pads(text, cell)
    ensures Clean(text) == cell
  {
    var i, j :| 0 <= i <= j <= |text| && text[i..j] == cell && IsSpaces(text[..i]) && IsSpaces(text[j..]);
    if cell == "" {
      assert text == text[..i] + text[j..];
      SpacesAreNothing(text);
    } else {
      StartSkipped(text, i);
      assert text[i..] == cell + text[j..];
      BehindIsTrimmed(text[i..], cell, text[j..]);
    }
  }

  lemma {:induction false} StartTrimmed(text: string) returns (i: nat)
    ensures i <= |text| && TrimStart(text) == text[i..] && IsSpaces(text[..i])
    ensures i < |text| ==> !Csv.IsSpace(text[i])
  {
    i := 0;
    if text != "" && Csv.IsSpace(text[0]) {
      var k := StartTrimmed(text[1..]);
      i := k + 1;
      assert text[..i] == [text[0]] + text[1..][..k];
    }
  }

  lemma {:induction false} EndTrimmed(text: string) returns (j: nat)
    ensures j <= |text| && TrimEnd(text) == text[..j] && IsSpaces(text[j..])
    ensures j > 0 ==> !Csv.IsSpace(text[j - 1])
  {
    var last := |text| - 1;
    j := |text|;
    if text != "" && Csv.IsSpace(text[last]) {
      j := EndTrimmed(text[..last]);
      assert text[j..] == text[..last][j..] + [text[last]];
      assert text[..last][..j] == text[..j];
    }
  }

  /** Every text is one tight cell with white space around it, and that cell is what the import keeps of it. */
  lemma CleanTrims(text: string, cell: string)
    ensures Pads(text, cell) <==> Clean(text) == cell
  {
    if Clean(text) == cell {
      var i := StartTrimmed(text);
      var j := EndTrimmed(text[i..]);
      assert text[i..][..j] == text[i..i + j] == cell && text[i..][j..] == text[i + j..];
      assert j > 0 ==> text[i..][0] == text[i] && text[i..][j - 1] == cell[j - 1];
      assert Pads(text, cell);
    }
    if Pads(text, cell) {
      PaddedIsClean(text, cell);
    }
  }

  // ---------- numbers ----------

  function Digit(n: nat): char
    requires n < 10
  {
    '0' + n as char
  }

  /** The number in decimal, without leading zeros. */
  function Numeral(n: nat): string {
    if n < 10 then [Digit(n)] else Numeral(n / 10) + [Digit(n % 10)]
  }

  function Zeros(z: nat): string {
    seq(z, i => '0')
  }

  /** The cell is the number, with or without leading zeros. */
  ghost predicate Spells(cell: string, n: nat) {
    exists z: nat :: cell == Zeros(z) + Numeral(n)
  }

  predicate AllDigits(cell: string) {
    forall i | 0 <= i < |cell| :: '0' <= cell[i] <= '9'
  }

  lemma {:induction false} NumeralRead(z: nat, n: nat)
    ensures var text := Zeros(z) + Numeral(n); text != "" && AllDigits(text) && DecimalValue(text) == n
  {
    var text := Zeros(z) + Numeral(n);
    var last := |text| - 1;
    if n < 10 {
      assert text[..last] == Zeros(z);
      ZerosRead(z);
    } else {
      NumeralRead(z, n / 10);
      assert text[..last] == Zeros(z) + Numeral(n / 10);
    }
  }

  lemma {:induction false} ZerosRead(z: nat)
    ensures AllDigits(Zeros(z)) && DecimalValue(Zeros(z)) == 0
  {
    if z > 0 {
      ZerosRead(z - 1);
      assert Zeros(z)[..z - 1] == Zeros(z - 1);
    }
  }

  lemma OneMoreDigit(init: string, n: nat, units: nat)
    requires Spells(init, n) && units < 10
    ensures Spells(init + [Digit(units)], 10 * n + units)
  {
    var z: nat :| init == Zeros(z) + Numeral(n);
    if n == 0 {
      assert Zeros(z) + Numeral(0) == Zeros(z + 1);
      assert init + [Digit(units)] == Zeros(z + 1) + Numeral(units);
    } else {
      assert Numeral(10 * n + units) == Numeral(n) + [Digit(units)];
      assert init + [Digit(units)] == Zeros(z) + Numeral(10 * n + units);
    }
  }

  lemma {:induction false} DigitsSpell(cell: string)
    requires cell != "" && AllDigits(cell)
    ensures Spells(cell, DecimalValue(cell))
  {
    var last := |cell| - 1;
    var init, units := cell[..last], cell[last] as int - '0' as int;
    assert cell == init + [Digit(units)];
    if init == "" {
      assert DecimalValue(init) == 0;
      assert cell == Zeros(0) + Numeral(units);
      assert Spells(cell, units);
    } else {
      DigitsSpell(init);
      OneMoreDigit(init, DecimalValue(init), units);
    }
  }

  /** A cell is a number exactly when it spells it in decimal and a JavaScript number can represent it. */
  lemma NumbersAreDecimal(cell: string, n: nat)
    ensures SafeInteger(cell) == Some(n) <==> n <= 0x1F_FFFF_FFFF_FFFF && Spells(cell, n)
  {
    if SafeInteger(cell) == Some(n) {
      DigitsSpell(cell);
    }
    if z: nat :| n <= 0x1F_FFFF_FFFF_FFFF && cell == Zeros(z) + Numeral(n) {
      NumeralRead(z, n);
    }
  }

  // ---------- rows ----------

  const HEADINGS := ["recordType", "code", "name", "saleUnit", "customerCode", "sku", "warehouseCode", "quantity",
                     "unitPrice"]

  function NameOf(recordType: RecordType): string {
    match recordType
    case Customer => "customer"
    case Supplier => "supplier"
    case Warehouse => "warehouse"
    case Product => "product"
    case Price => "price"
    case Stock => "stock"
  }

  ghost predicate HoldsNumber(number: Option<nat>, cell: string) {
    forall n: nat :: number == Some(n) <==> n <= 0x1F_FFFF_FFFF_FFFF && Spells(cell, n)
  }

  /** The nine cells of a row whose type is known. */
  ghost predicate IsRow(cells: seq<string>) {
    |cells| == 9 && exists recordType :: cells[0] == NameOf(recordType)
  }

  /** Each field of the row is the cell of its column; codes are in upper case. */
  ghost predicate HoldsCells(upper: string -> string, row: ImportRow, cells: seq<string>)
    requires |cells| == 9
  {
    && NameOf(row.recordType) == cells[0]
    && row.code == upper(cells[1])
    && row.name == cells[2]
    && row.saleUnit == cells[3]
    && row.customerCode == upper(cells[4])
    && row.sku == upper(cells[5])
    && row.warehouseCode == upper(cells[6])
    && HoldsNumber(row.quantity, cells[7])
    && HoldsNumber(row.unitPrice, cells[8])
  }

  ghost predicate PadsAll(values: seq<string>, cells: seq<string>) {
    |values| == |cells| && forall c | 0 <= c < |cells| :: Pads(values[c], cells[c])
  }

  lemma NumberHolds(cell: string)
    ensures HoldsNumber(SafeInteger(cell), cell)
  {
    forall n: nat ensures SafeInteger(cell) == Some(n) <==> n <= 0x1F_FFFF_FFFF_FFFF && Spells(cell, n) {
      NumbersAreDecimal(cell, n);
    }
  }

  lemma TypeIsNamed(recordType: RecordType)
    ensures TypeNamed(NameOf(recordType)) == Some(recordType)
  {
  }

  lemma CellsAreHeld(upper: string -> string, recordType: RecordType, values: seq<string>, cells: seq<string>,
                     rowNumber: nat)
    requires |values| == |cells| == 9 && cells[0] == NameOf(recordType)
    requires forall c | 0 <= c < 9 :: Clean(values[c]) == cells[c]
    ensures HoldsCells(upper, RowOf(upper, recordType, values, rowNumber), cells)
  {
    NumberHolds(cells[7]);
    NumberHolds(cells[8]);
  }

  lemma RowIsRead(upper: string -> string, values: seq<string>, cells: seq<string>, rowNumber: nat)
    requires IsRow(cells) && PadsAll(values, cells)
    ensures var reading := ReadingOf(upper, values, rowNumber);
            reading.Success? && reading.value.rowNumber == rowNumber && HoldsCells(upper, reading.value, cells)
  {
    forall c | 0 <= c < 9 ensures Clean(values[c]) == cells[c] {
      CleanTrims(values[c], cells[c]);
    }
    var recordType :| cells[0] == NameOf(recordType);
    TypeIsNamed(recordType);
    CellsAreHeld(upper, recordType, values, cells, rowNumber);
  }

  // ---------- files ----------

  /** The file has the headings and then the rows, with any quotes, line ends and white space around its cells, with or
      without a byte order mark. */
  ghost predicate IsFile(content: string, doc: seq<Record>, rows: seq<seq<string>>) {
    && IsWritable(doc) && |doc| == |rows| + 1
    && Csv.Utf8Length(Write(doc)) <= 1024 * 1024
    && (content == [Csv.BOM] + Write(doc) || (content == Write(doc) && content != "" && content[0] != Csv.BOM))
    && PadsAll(Values(doc[0].fields), HEADINGS)
    && forall i: nat | i < |rows| :: IsRow(rows[i]) && PadsAll(Values(doc[i + 1].fields), rows[i])
  }

  lemma PaddedNotBlank(values: seq<string>, cells: seq<string>)
    requires PadsAll(values, cells) && cells != [] && cells[0] != ""
    ensures !Csv.IsBlank(values)
  {
    var text, cell := values[0], cells[0];
    assert Pads(text, cell);
    var i, j :| 0 <= i <= j <= |text| && text[i..j] == cell && IsSpaces(text[..i]) && IsSpaces(text[j..]);
    assert text[i] == cell[0];
  }

  lemma {:induction false} NothingBlank(table: seq<seq<string>>)
    requires forall r | 0 <= r < |table| :: !Csv.IsBlank(table[r])
    ensures Csv.NonBlank(table) == table
  {
    if table != [] {
      var last := |table| - 1;
      NothingBlank(table[..last]);
      assert !Csv.IsBlank(table[last]);
      assert table == table[..last] + [table[last]];
    }
  }

  lemma HeaderIsClean(values: seq<string>)
    requires PadsAll(values, HEADINGS)
    ensures Cleaned(values) == HEADER
  {
    forall c | 0 <= c < |HEADINGS| ensures Clean(values[c]) == HEADINGS[c] {
      CleanTrims(values[c], HEADINGS[c]);
    }
  }

  lemma FileNotBlank(content: string, doc: seq<Record>, rows: seq<seq<string>>)
    requires IsFile(content, doc, rows)
    ensures Csv.NonBlank(TableOf(doc)) == TableOf(doc)
  {
    var table := TableOf(doc);
    forall r | 0 <= r < |table| ensures !Csv.IsBlank(table[r]) {
      if r == 0 {
        PaddedNotBlank(table[0], HEADINGS);
      } else {
        assert IsRow(rows[r - 1]);
        PaddedNotBlank(table[r], rows[r - 1]);
      }
    }
    NothingBlank(table);
  }

  lemma FileIsRead(content: string, doc: seq<Record>, rows: seq<seq<string>>)
    requires IsFile(content, doc, rows)
    ensures Csv.Read(Csv.StripBom(content)) == Success(TableOf(doc))
    ensures Cleaned(TableOf(doc)[0]) == HEADER
  {
    FileNotBlank(content, doc, rows);
    ReadsWhatIsWritten(doc);
    assert ([Csv.BOM] + Write(doc))[1..] == Write(doc);
    HeaderIsClean(TableOf(doc)[0]);
  }

  /** The readings are the rows' cells, row by row; the first data row is row 2. */
  ghost predicate ReadingsAre(upper: string -> string, readings: seq<Reading>, rows: seq<seq<string>>) {
    && |readings| == |rows|
    && forall i: nat | i < |rows| ::
      && |rows[i]| == 9 && readings[i].Success? && readings[i].value.rowNumber == i + 2
      && HoldsCells(upper, readings[i].value, rows[i])
  }

  lemma RowsAreRead(upper: string -> string, content: string, doc: seq<Record>, rows: seq<seq<string>>)
    requires IsFile(content, doc, rows)
    ensures ReadingsAre(upper, Readings(upper, TableOf(doc)), rows)
  {
    forall i: nat | i < |rows|
      ensures var reading := Readings(upper, TableOf(doc))[i];
              && |rows[i]| == 9 && reading.Success? && reading.value.rowNumber == i + 2
              && HoldsCells(upper, reading.value, rows[i])
    {
      RowIsRead(upper, Values(doc[i + 1].fields), rows[i], i + 2);
    }
  }

  lemma {:induction false} FirstPassKeepsRows(readings: seq<Reading>, n: nat)
    requires n <= |readings| && forall i: nat | i < n :: readings[i].Success?
    ensures var rows := FirstPass(readings, n).rows;
            |rows| == n && forall i: nat | i < n :: rows[i] == readings[i].value
  {
    if n > 0 {
      FirstPassKeepsRows(readings, n - 1);
    }
  }

  /** Each row holds the cells of its row in the file; the first data row is row 2. */
  ghost predicate RowsHold(upper: string -> string, parsed: seq<ImportRow>, rows: seq<seq<string>>) {
    && |parsed| == |rows|
    && forall i: nat | i < |rows| ::
      |rows[i]| == 9 && parsed[i].rowNumber == i + 2 && HoldsCells(upper, parsed[i], rows[i])
  }

  lemma PassHolds(upper: string -> string, readings: seq<Reading>, rows: seq<seq<string>>)
    requires ReadingsAre(upper, readings, rows)
    ensures RowsHold(upper, FirstPass(readings, |readings|).rows, rows)
  {
    FirstPassKeepsRows(readings, |readings|);
  }

  /** Each field of each row is read from its own column. */
  lemma FileRows(upper: string -> string, content: string, doc: seq<Record>, rows: seq<seq<string>>, external: bool)
    requires IsFile(content, doc, rows)
    ensures var out := Parse(upper, content, external);
            if |rows| > 2000 then out == Failure(TooManyRows)
            else out.Success? && RowsHold(upper, out.value.rows, rows)
  {
    FileIsRead(content, doc, rows);
    RowsAreRead(upper, content, doc, rows);
    PassHolds(upper, Readings(upper, TableOf(doc)), rows);
  }

  // ---------- what makes a file free of errors ----------

  ghost predicate IsNumber(cell: string) {
    exists n: nat :: n <= 0x1F_FFFF_FFFF_FFFF && Spells(cell, n)
  }

  /** The row has a code and what else its type asks for. */
  ghost predicate IsComplete(upper: string -> string, cells: seq<string>)
    requires |cells| == 9
  {
    && (cells[0] in {"customer", "supplier", "warehouse"} ==> upper(cells[1]) !in {"", ":"} && cells[2] != "")
    && (cells[0] == "product" ==> upper(cells[5]) !in {"", ":"} && cells[2] != "" && cells[3] != "")
    && (cells[0] == "price" ==> (upper(cells[4]) != "" || upper(cells[5]) != "") && IsNumber(cells[8]))
    && (cells[0] == "stock" ==> (upper(cells[6]) != "" || upper(cells[5]) != "") && IsNumber(cells[7]))
  }

  /** The rows are of one type, and their codes read alike when joined by a colon. */
  predicate ReadAlike(upper: string -> string, a: seq<string>, b: seq<string>)
    requires |a| == |b| == 9
  {
    && a[0] == b[0]
    && (a[0] in {"customer", "supplier", "warehouse"} ==> upper(a[1]) == upper(b[1]))
    && (a[0] == "product" ==> upper(a[5]) == upper(b[5]))
    && (a[0] == "price" ==> upper(a[4]) + ":" + upper(a[5]) == upper(b[4]) + ":" + upper(b[5]))
    && (a[0] == "stock" ==> upper(a[6]) + ":" + upper(a[5]) == upper(b[6]) + ":" + upper(b[5]))
  }

  /** The file has a row of the type with the code in the column. */
  ghost predicate HasRow(upper: string -> string, rows: seq<seq<string>>, name: string, column: nat, code: string) {
    exists j: nat :: j < |rows| && |rows[j]| == 9 && column < 9 && rows[j][0] == name && upper(rows[j][column]) == code
  }

  /** What a price or a stock is for has a row of its own. */
  ghost predicate RefersToFile(upper: string -> string, rows: seq<seq<string>>, cells: seq<string>)
    requires |cells| == 9
  {
    && (cells[0] == "price" ==> HasRow(upper, rows, "customer", 1, upper(cells[4])))
    && (cells[0] == "stock" ==> HasRow(upper, rows, "warehouse", 1, upper(cells[6])))
    && (cells[0] in {"price", "stock"} ==> HasRow(upper, rows, "product", 5, upper(cells[5])))
  }

  lemma NumberIsSome(number: Option<nat>, cell: string)
    requires HoldsNumber(number, cell)
    ensures number.Some? <==> IsNumber(cell)
  {
    if number.Some? {
      assert number == Some(number.value);
    }
  }

  lemma JoinedIsEmpty(first: string, second: string)
    ensures first + ":" + second in {"", ":"} <==> first == "" && second == ""
  {
    assert |first + ":" + second| == |first| + 1 + |second|;
    assert "" + ":" + "" == ":";
  }

  /** A row without a code to go by. */
  predicate LacksCode(row: ImportRow) {
    match row.recordType
    case Product => row.sku in {"", ":"}
    case Price => row.customerCode == "" && row.sku == ""
    case Stock => row.warehouseCode == "" && row.sku == ""
    case _ => row.code in {"", ":"}
  }

  lemma LacksCodeWhen(row: ImportRow)
    ensures KeyText(KeyOf(row)) in {"", ":"} <==> LacksCode(row)
  {
    if row.recordType == Price {
      JoinedIsEmpty(row.customerCode, row.sku);
    } else if row.recordType == Stock {
      JoinedIsEmpty(row.warehouseCode, row.sku);
    }
  }

  lemma CompleteIsFine(upper: string -> string, reading: Reading, cells: seq<string>)
    requires |cells| == 9 && reading.Success? && HoldsCells(upper, reading.value, cells)
    ensures RowFine(reading) <==> IsComplete(upper, cells)
  {
    LacksCodeWhen(reading.value);
    NumberIsSome(reading.value.quantity, cells[7]);
    NumberIsSome(reading.value.unitPrice, cells[8]);
  }

  lemma AlikeWhen(upper: string -> string, a: ImportRow, b: ImportRow, cells: seq<string>, other: seq<string>)
    requires |cells| == |other| == 9 && HoldsCells(upper, a, cells) && HoldsCells(upper, b, other)
    ensures Alike(KeyOf(a), KeyOf(b)) <==> ReadAlike(upper, cells, other)
  {
  }

  lemma RowsFineWhen(upper: string -> string, readings: seq<Reading>, rows: seq<seq<string>>)
    requires ReadingsAre(upper, readings, rows)
    ensures RowsFine(readings, |readings|) <==>
              && (forall i: nat | i < |rows| :: |rows[i]| == 9 && IsComplete(upper, rows[i]))
              && (forall i: nat, j: nat | i < j < |rows| ::
                    |rows[i]| == |rows[j]| == 9 && !ReadAlike(upper, rows[i], rows[j]))
  {
    forall i: nat | i < |rows| ensures RowFine(readings[i]) <==> IsComplete(upper, rows[i]) {
      CompleteIsFine(upper, readings[i], rows[i]);
    }
    forall i: nat, j: nat | i < j < |rows|
      ensures Alike(KeyOf(readings[i].value), KeyOf(readings[j].value)) <==> ReadAlike(upper, rows[i], rows[j])
    {
      AlikeWhen(upper, readings[i].value, readings[j].value, rows[i], rows[j]);
    }
  }

  lemma RowForWhen(upper: string -> string, readings: seq<Reading>, rows: seq<seq<string>>, recordType: RecordType,
                   column: nat, code: string)
    requires ReadingsAre(upper, readings, rows)
    requires (recordType in {Customer, Warehouse} && column == 1) || (recordType == Product && column == 5)
    ensures HasRowFor(readings, |readings|, Key(recordType, code, "")) <==>
              HasRow(upper, rows, NameOf(recordType), column, code)
  {
    var key := Key(recordType, code, "");
    forall i: nat | i < |rows|
      ensures KeyOf(readings[i].value) == key <==> rows[i][0] == NameOf(recordType) && upper(rows[i][column]) == code
    {
      assert HoldsCells(upper, readings[i].value, rows[i]);
    }
  }

  lemma ReferencesFineWhen(upper: string -> string, readings: seq<Reading>, rows: seq<seq<string>>)
    requires ReadingsAre(upper, readings, rows)
    ensures ReferencesFine(readings) <==>
              forall i: nat | i < |rows| :: |rows[i]| == 9 && RefersToFile(upper, rows, rows[i])
  {
    forall i: nat | i < |rows|
      ensures RefersToRows(readings, readings[i].value) <==> RefersToFile(upper, rows, rows[i])
    {
      assert HoldsCells(upper, readings[i].value, rows[i]);
      RowForWhen(upper, readings, rows, Customer, 1, upper(rows[i][4]));
      RowForWhen(upper, readings, rows, Warehouse, 1, upper(rows[i][6]));
      RowForWhen(upper, readings, rows, Product, 5, upper(rows[i][5]));
    }
  }

  /** Every row is complete, no two read alike, and, unless references outside the file are allowed, what prices and
      stocks are for has rows in it. */
  ghost predicate NothingWrong(upper: string -> string, rows: seq<seq<string>>, external: bool) {
    && (forall i: nat | i < |rows| :: |rows[i]| == 9 && IsComplete(upper, rows[i]))
    && (forall i: nat, j: nat | i < j < |rows| ::
          |rows[i]| == |rows[j]| == 9 && !ReadAlike(upper, rows[i], rows[j]))
    && (external || forall i: nat | i < |rows| :: |rows[i]| == 9 && RefersToFile(upper, rows, rows[i]))
  }

  lemma ReadingsFineWhen(upper: string -> string, readings: seq<Reading>, rows: seq<seq<string>>, external: bool)
    requires ReadingsAre(upper, readings, rows)
    ensures RowsFine(readings, |readings|) && (external || ReferencesFine(readings)) <==>
              NothingWrong(upper, rows, external)
  {
    RowsFineWhen(upper, readings, rows);
    ReferencesFineWhen(upper, readings, rows);
  }

  /** A file has no errors exactly when nothing is wrong with the cells of its rows. */
  lemma FileErrors(upper: string -> string, content: string, doc: seq<Record>, rows: seq<seq<string>>, external: bool)
    requires IsFile(content, doc, rows) && |rows| <= 2000
    ensures Parse(upper, content, external).Success?
    ensures Parse(upper, content, external).value.errors == [] <==> NothingWrong(upper, rows, external)
  {
    FileIsRead(content, doc, rows);
    RowsAreRead(upper, content, doc, rows);
    ParsedFine(upper, TableOf(doc), external);
    ReadingsFineWhen(upper, Readings(upper, TableOf(doc)), rows, external);
  }

  // ---------- codes with colons ----------

  /** The first code of the one pair goes on with a colon and a piece of the second code of the other. */
  ghost predicate RunsInto(first: string, second: string, other: string, otherSecond: string) {
    exists piece :: first == other + ":" + piece && otherSecond == piece + ":" + second
  }

  /** Different pairs of codes read alike exactly when a colon of the codes can be taken for the one between them. */
  lemma PairsReadAlike(first: string, second: string, other: string, otherSecond: string)
    ensures first + ":" + second == other + ":" + otherSecond <==>
              || (first == other && second == otherSecond)
              || RunsInto(first, second, other, otherSecond)
              || RunsInto(other, otherSecond, first, second)
  {
    var joined := first + ":" + second;
    if joined == other + ":" + otherSecond {
      if |first| == |other| {
        assert first == joined[..|first|] == other && second == joined[|first| + 1..] == otherSecond;
      } else if |first| > |other| {
        LongerRunsInto(first, second, other, otherSecond);
      } else {
        LongerRunsInto(other, otherSecond, first, second);
      }
    }
    if piece :| first == other + ":" + piece && otherSecond == piece + ":" + second {
      assert joined == other + ":" + (piece + ":" + second);
    }
    if piece :| other == first + ":" + piece && second == piece + ":" + otherSecond {
      assert other + ":" + otherSecond == first + ":" + (piece + ":" + otherSecond);
    }
  }

  lemma LongerRunsInto(first: string, second: string, other: string, otherSecond: string)
    requires |first| > |other| && first + ":" + second == other + ":" + otherSecond
    ensures RunsInto(first, second, other, otherSecond)
  {
    var joined, piece := first + ":" + second, first[|other| + 1..];
    assert first == joined[..|first|] && other == joined[..|other|] && joined[|other|] == ':';
    assert first == other + ":" + piece;
    assert otherSecond == joined[|other| + 1..];
    assert joined == other + ":" + (piece + ":" + second);
  }

  function PriceCells(customer: string, sku: string): seq<string> {
    ["price", "", "", "", customer, sku, "", "", "7"]
  }

  lemma SevenIsNumber()
    ensures IsNumber("7")
  {
    assert Zeros(0) + Numeral(7) == "7";
    assert Spells("7", 7);
  }

  lemma PriceIsComplete(upper: string -> string, customer: string, sku: string)
    requires upper(customer) != ""
    ensures IsComplete(upper, PriceCells(customer, sku))
  {
    SevenIsNumber();
    assert PriceCells(customer, sku)[0] == "price" && PriceCells(customer, sku)[8] == "7";
  }

  lemma NothingWrongAlone(upper: string -> string, customer: string, sku: string)
    requires upper(customer) != ""
    ensures NothingWrong(upper, [PriceCells(customer, sku)], true)
  {
    PriceIsComplete(upper, customer, sku);
  }

  lemma WrongTogether(upper: string -> string)
    requires forall code | code in {"A:B", "C", "A", "B:C"} :: upper(code) == code
    ensures !NothingWrong(upper, [PriceCells("A:B", "C"), PriceCells("A", "B:C")], true)
  {
    var a, b := PriceCells("A:B", "C"), PriceCells("A", "B:C");
    assert upper("A:B") == "A:B" && upper("C") == "C" && upper("A") == "A" && upper("B:C") == "B:C";
    assert "A:B" + ":" + "C" == "A" + ":" + "B:C";
    assert a[0] == b[0] == "price";
    assert ReadAlike(upper, a, b);
    assert [a, b][0] == a && [a, b][1] == b;
  }

  /** Prices of two customers for two products, either of them fine alone, but refused in one file. */
  lemma FalseDuplicate(upper: string -> string, content: string, doc: seq<Record>, rows: seq<seq<string>>)
    requires forall code | code in {"A:B", "C", "A", "B:C"} :: upper(code) == code
    requires IsFile(content, doc, rows) && |rows| <= 2
    ensures Parse(upper, content, true).Success?
    ensures rows == [PriceCells("A:B", "C")] || rows == [PriceCells("A", "B:C")] ==>
              Parse(upper, content, true).value.errors == []
    ensures rows == [PriceCells("A:B", "C"), PriceCells("A", "B:C")] ==>
              Parse(upper, content, true).value.errors != []
  {
    FileErrors(upper, content, doc, rows, true);
    assert upper("A:B") == "A:B" && upper("A") == "A";
    NothingWrongAlone(upper, "A:B", "C");
    NothingWrongAlone(upper, "A", "B:C");
    WrongTogether(upper);
  }
}
