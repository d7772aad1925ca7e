/** Reading an initial import file: header, columns, required fields, unique keys, references inside the file. */
module ImportParser {
  import opened Wrappers
  import Csv

  datatype RecordType = Customer | Supplier | Warehouse | Product | Price | Stock

  const HEADER := ["recordType", "code", "name", "saleUnit", "customerCode", "sku", "warehouseCode", "quantity",
                   "unitPrice"]

  const COLUMNS := 9

  const MAX_ROWS := 2000

  const MAX_SAFE_INTEGER := 0x1F_FFFF_FFFF_FFFF

  /** `quantity` and `unitPrice` are present only when the cell holds an integer JavaScript can represent. */
  datatype ImportRow = ImportRow(rowNumber: nat, recordType: RecordType, code: string, name: string, saleUnit: string,
                                 customerCode: string, sku: string, warehouseCode: string,
                                 quantity: Option<nat>, unitPrice: Option<nat>)

  /** What identifies a row: its type and the one or two codes that name it. */
  datatype Key = Key(recordType: RecordType, first: string, second: string)

  datatype RowError =
    | WrongColumnCount
    | UnknownType
    | MissingKey
    | DuplicateKey
    | MissingName
    | MissingProductFields
    | BadPrice
    | BadQuantity
    | UnknownReference

  datatype ImportError = ImportError(rowNumber: nat, error: RowError)

  datatype FileError = Unreadable(error: Csv.CsvError) | BadHeader | TooManyRows

  datatype Parsed = Parsed(rows: seq<ImportRow>, errors: seq<ImportError>)

  // ---------- one cell ----------

  function TrimStart(text: string): string {
    if text != "" && Csv.IsSpace(text[0]) then TrimStart(text[1..]) else text
  }

  function TrimEnd(text: string): string {
    if text != "" && Csv.IsSpace(text[|text| - 1]) then TrimEnd(text[..|text| - 1]) else text
  }

  function Clean(text: string): string {
    TrimEnd(TrimStart(text))
  }

  function DecimalValue(digits: string): nat
    requires forall i | 0 <= i < |digits| :: '0' <= digits[i] <= '9'
  {
    if digits == "" then 0
    else 10 * DecimalValue(digits[..|digits| - 1]) + (digits[|digits| - 1] as int - '0' as int)
  }

  function SafeInteger(text: string): Option<nat> {
    if text != "" && (forall i | 0 <= i < |text| :: '0' <= text[i] <= '9')
        && DecimalValue(text) <= MAX_SAFE_INTEGER then
      Some(DecimalValue(text))
    else None
  }

  function TypeNamed(name: string): Option<RecordType> {
    if name == "customer" then Some(Customer)
    else if name == "supplier" then Some(Supplier)
    else if name == "warehouse" then Some(Warehouse)
    else if name == "product" then Some(Product)
    else if name == "price" then Some(Price)
    else if name == "stock" then Some(Stock)
    else None
  }

  // ---------- one row ----------

  function RowOf(upper: string -> string, recordType: RecordType, values: seq<string>, rowNumber: nat): ImportRow
    requires |values| == COLUMNS
  {
    ImportRow(rowNumber, recordType, upper(Clean(values[1])), Clean(values[2]), Clean(values[3]),
              upper(Clean(values[4])), upper(Clean(values[5])), upper(Clean(values[6])),
              SafeInteger(Clean(values[7])), SafeInteger(Clean(values[8])))
  }

  /** One row of the table; `upper` is the platform's conversion to upper case. */
  function ReadingOf(upper: string -> string, values: seq<string>, rowNumber: nat): Result<ImportRow, RowError> {
    if |values| != COLUMNS then Failure(WrongColumnCount)
    else
      match TypeNamed(Clean(values[0]))
      case None => Failure(UnknownType)
      case Some(recordType) => Success(RowOf(upper, recordType, values, rowNumber))
  }

  type Reading = Result<ImportRow, RowError>

  /** The data rows of a table; the header is row 1. */
  function Readings(upper: string -> string, table: seq<seq<string>>): (readings: seq<Reading>)
    requires table != []
    ensures |readings| == |table| - 1
  {
    seq(|table| - 1, i requires 0 <= i < |table| - 1 => ReadingOf(upper, table[i + 1], i + 2))
  }

  function KeyOf(row: ImportRow): Key {
    match row.recordType
    case Product => Key(Product, row.sku, "")
    case Price => Key(Price, row.customerCode, row.sku)
    case Stock => Key(Stock, row.warehouseCode, row.sku)
    case _ => Key(row.recordType, row.code, "")
  }

  /** What keys are compared by: two codes are joined by a colon, and may run together if they have colons already. */
  function KeyText(key: Key): string {
    if key.recordType == Price || key.recordType == Stock then key.first + ":" + key.second else key.first
  }

  predicate Alike(a: Key, b: Key) {
    a.recordType == b.recordType && KeyText(a) == KeyText(b)
  }

  predicate Taken(keys: set<Key>, key: Key) {
    exists k | k in keys :: Alike(k, key)
  }

  predicate IsParty(recordType: RecordType) {
    recordType == Customer || recordType == Supplier || recordType == Warehouse
  }

  /** What is wrong with a row in itself, apart from a duplicate key. */
  function FieldError(row: ImportRow): Option<RowError> {
    if IsParty(row.recordType) && (row.code == "" || row.name == "") then Some(MissingName)
    else if row.recordType == Product && (row.sku == "" || row.name == "" || row.saleUnit == "") then
      Some(MissingProductFields)
    else if row.recordType == Price && row.unitPrice == None then Some(BadPrice)
    else if row.recordType == Stock && row.quantity == None then Some(BadQuantity)
    else None
  }

  function RowErrorOf(row: ImportRow, keys: set<Key>): Option<RowError> {
    if KeyText(KeyOf(row)) in {"", ":"} then Some(MissingKey)
    else if Taken(keys, KeyOf(row)) then Some(DuplicateKey)
    else FieldError(row)
  }

  // ---------- the two passes ----------

  /** What the first pass has collected: the rows, the errors, and the keys of the rows without error. */
  datatype Pass = Pass(rows: seq<ImportRow>, errors: seq<ImportError>, keys: set<Key>)

  function Step(pass: Pass, reading: Reading, rowNumber: nat): Pass {
    match reading
    case Failure(e) => pass.(errors := pass.errors + [ImportError(rowNumber, e)])
    case Success(row) =>
      match RowErrorOf(row, pass.keys)
      case Some(e) => Pass(pass.rows + [row], pass.errors + [ImportError(rowNumber, e)], pass.keys)
      case None => Pass(pass.rows + [row], pass.errors, pass.keys + {KeyOf(row)})
  }

  /** The first pass over the first `n` data rows. */
  function FirstPass(readings: seq<Reading>, n: nat): Pass
    requires n <= |readings|
  {
    if n == 0 then Pass([], [], {}) else Step(FirstPass(readings, n - 1), readings[n - 1], n + 1)
  }

  predicate RefersInside(keys: set<Key>, row: ImportRow) {
    && (row.recordType == Price ==> Key(Customer, row.customerCode, "") in keys && Key(Product, row.sku, "") in keys)
    && (row.recordType == Stock ==> Key(Warehouse, row.warehouseCode, "") in keys && Key(Product, row.sku, "") in keys)
  }

  predicate Blamed(errors: seq<ImportError>, rowNumber: nat) {
    exists e | 0 <= e < |errors| :: errors[e].rowNumber == rowNumber
  }

  /** The second pass over the first `n` rows: references of rows that have no error yet. */
  function SecondPass(pass: Pass, n: nat): seq<ImportError>
    requires n <= |pass.rows|
  {
    if n == 0 then pass.errors
    else
      var errors, row := SecondPass(pass, n - 1), pass.rows[n - 1];
      if !Blamed(errors, row.rowNumber) && !RefersInside(pass.keys, row) then
        errors + [ImportError(row.rowNumber, UnknownReference)]
      else errors
  }

  /** The errors before they are sorted. */
  function Errors(pass: Pass, external: bool): seq<ImportError> {
    if external then pass.errors else SecondPass(pass, |pass.rows|)
  }

  function Inserted(errors: seq<ImportError>, e: ImportError): seq<ImportError> {
    if errors == [] || errors[|errors| - 1].rowNumber <= e.rowNumber then errors + [e]
    else Inserted(errors[..|errors| - 1], e) + [errors[|errors| - 1]]
  }

  /** The errors in the order of their rows. */
  function Sorted(errors: seq<ImportError>): seq<ImportError> {
    if errors == [] then [] else Inserted(Sorted(errors[..|errors| - 1]), errors[|errors| - 1])
  }

  function Cleaned(values: seq<string>): (cleaned: seq<string>)
    ensures |cleaned| == |values|
  {
    seq(|values|, i requires 0 <= i < |values| => Clean(values[i]))
  }

  function ParseTable(upper: string -> string, table: seq<seq<string>>, external: bool): Result<Parsed, FileError> {
    if table == [] || Csv.Join(Cleaned(table[0]), ",") != Csv.Join(HEADER, ",") then Failure(BadHeader)
    else if |table| - 1 > MAX_ROWS then Failure(TooManyRows)
    else
      var pass := FirstPass(Readings(upper, table), |table| - 1);
      Success(Parsed(pass.rows, Sorted(Errors(pass, external))))
  }

  /** `external` allows references to customers, warehouses and products that are not in the file. */
  function Parse(upper: string -> string, content: string, external: bool): Result<Parsed, FileError> {
    match Csv.Read(Csv.StripBom(content))
    case Failure(e) => Failure(Unreadable(e))
    case Success(table) => ParseTable(upper, table, external)
  }

  // ---------- the loops ----------

  /** The first pass, with the code sets the service keeps beside its keys. */
  method CheckRows(upper: string -> string, table: seq<seq<string>>)
    returns (pass: Pass, customerCodes: set<string>, warehouseCodes: set<string>, productSkus: set<string>)
    requires table != []
    ensures pass == FirstPass(Readings(upper, table), |table| - 1)
    ensures forall row: ImportRow :: RefersInside(pass.keys, row) <==>
              && (row.recordType == Price ==> row.customerCode in customerCodes && row.sku in productSkus)
              && (row.recordType == Stock ==> row.warehouseCode in warehouseCodes && row.sku in productSkus)
  {
    var rows: seq<ImportRow>, errors: seq<ImportError>, keys: set<Key> := [], [], {};
    customerCodes, warehouseCodes, productSkus := {}, {}, {};
    for index := 1 to |table|
      invariant FirstPass(Readings(upper, table), index - 1) == Pass(rows, errors, keys)
      invariant forall code :: code in customerCodes <==> Key(Customer, code, "") in keys
      invariant forall code :: code in warehouseCodes <==> Key(Warehouse, code, "") in keys
      invariant forall code :: code in productSkus <==> Key(Product, code, "") in keys
    {
      var rowNumber := index + 1;
      var reading := ReadingOf(upper, table[index], rowNumber);
      assert Readings(upper, table)[index - 1] == reading;
      if reading.Failure? {
        errors := errors + [ImportError(rowNumber, reading.error)];
      } else {
        var row := reading.value;
        var error := RowErrorOf(row, keys);
        if error.Some? {
          errors := errors + [ImportError(rowNumber, error.value)];
        } else {
          keys := keys + {KeyOf(row)};
        }
        rows := rows + [row];
        if error.None? && row.recordType == Customer { customerCodes := customerCodes + {row.code}; }
        if error.None? && row.recordType == Warehouse { warehouseCodes := warehouseCodes + {row.code}; }
        if error.None? && row.recordType == Product { productSkus := productSkus + {row.sku}; }
      }
    }
    pass := Pass(rows, errors, keys);
  }

  /** The second pass, over the code sets of the first. */
  method CheckReferences(pass: Pass, customerCodes: set<string>, warehouseCodes: set<string>, productSkus: set<string>)
    returns (errors: seq<ImportError>)
    requires forall row: ImportRow :: RefersInside(pass.keys, row) <==>
               && (row.recordType == Price ==> row.customerCode in customerCodes && row.sku in productSkus)
               && (row.recordType == Stock ==> row.warehouseCode in warehouseCodes && row.sku in productSkus)
    ensures errors == SecondPass(pass, |pass.rows|)
  {
    errors := pass.errors;
    for n := 0 to |pass.rows|
      invariant errors == SecondPass(pass, n)
    {
      var row := pass.rows[n];
      if !Blamed(errors, row.rowNumber) {
        if row.recordType == Price && (row.customerCode !in customerCodes || row.sku !in productSkus) {
          errors := errors + [ImportError(row.rowNumber, UnknownReference)];
        }
        if row.recordType == Stock && (row.warehouseCode !in warehouseCodes || row.sku !in productSkus) {
          errors := errors + [ImportError(row.rowNumber, UnknownReference)];
        }
      }
    }
  }

  method CheckTable(upper: string -> string, table: seq<seq<string>>, external: bool)
    returns (result: Result<Parsed, FileError>)
    ensures result == ParseTable(upper, table, external)
  {
    if |table| == 0 || Csv.Join(Cleaned(table[0]), ",") != Csv.Join(HEADER, ",") { return Failure(BadHeader); }
    if |table| - 1 > MAX_ROWS { return Failure(TooManyRows); }
    var pass, customerCodes, warehouseCodes, productSkus := CheckRows(upper, table);
    var errors := pass.errors;
    if !external {
      errors := CheckReferences(pass, customerCodes, warehouseCodes, productSkus);
    }
    return Success(Parsed(pass.rows, Sorted(errors)));
  }

  method ParseInitialImport(upper: string -> string, content: string, external: bool)
    returns (result: Result<Parsed, FileError>)
    ensures result == Parse(upper, content, external)
  {
    var read := Csv.ParseCsv(Csv.StripBom(content));
    if read.Failure? { return Failure(Unreadable(read.error)); }
    result := CheckTable(upper, read.value, external);
  }

  // ---------- what an accepted file is ----------

  /** The row could be read and is right in itself. */
  predicate RowFine(reading: Reading) {
    && reading.Success?
    && KeyText(KeyOf(reading.value)) !in {"", ":"}
    && FieldError(reading.value).None?
  }

  ghost predicate HasRowFor(readings: seq<Reading>, n: nat, key: Key)
    requires n <= |readings|
  {
    exists i: nat :: i < n && readings[i].Success? && KeyOf(readings[i].value) == key
  }

  ghost predicate HasRowLike(readings: seq<Reading>, n: nat, key: Key)
    requires n <= |readings|
  {
    exists i: nat :: i < n && readings[i].Success? && Alike(KeyOf(readings[i].value), key)
  }

  /** Every row is right in itself, and no two have keys of the same text. */
  ghost predicate RowsFine(readings: seq<Reading>, n: nat)
    requires n <= |readings|
  {
    && (forall i: nat | i < n :: RowFine(readings[i]))
    && (forall i: nat, j: nat | i < j < n :: !Alike(KeyOf(readings[i].value), KeyOf(readings[j].value)))
  }

  ghost predicate RowsAre(readings: seq<Reading>, rows: seq<ImportRow>) {
    |rows| <= |readings| && forall i: nat | i < |rows| :: readings[i] == Success(rows[i])
  }

  ghost predicate KeysAre(readings: seq<Reading>, n: nat, keys: set<Key>)
    requires n <= |readings|
  {
    forall key :: key in keys <==> HasRowFor(readings, n, key)
  }

  lemma FinePrefix(readings: seq<Reading>, n: nat)
    requires n < |readings|
    ensures RowsFine(readings, n + 1) <==>
              RowsFine(readings, n) && RowFine(readings[n]) && !HasRowLike(readings, n, KeyOf(readings[n].value))
  {
    if RowsFine(readings, n) && RowFine(readings[n]) && !HasRowLike(readings, n, KeyOf(readings[n].value)) {
      forall i: nat | i < n ensures !Alike(KeyOf(readings[i].value), KeyOf(readings[n].value)) {
        assert readings[i].Success?;
      }
    }
  }

  lemma KeysGrow(readings: seq<Reading>, n: nat, keys: set<Key>)
    requires n < |readings| && readings[n].Success? && KeysAre(readings, n, keys)
    ensures KeysAre(readings, n + 1, keys + {KeyOf(readings[n].value)})
  {
    forall key ensures key in keys + {KeyOf(readings[n].value)} <==> HasRowFor(readings, n + 1, key) {
      if HasRowFor(readings, n, key) {
        var i: nat :| i < n && readings[i].Success? && KeyOf(readings[i].value) == key;
        assert HasRowFor(readings, n + 1, key);
      }
    }
  }

  lemma TakenWhen(readings: seq<Reading>, n: nat, keys: set<Key>, key: Key)
    requires n <= |readings| && KeysAre(readings, n, keys)
    ensures Taken(keys, key) <==> HasRowLike(readings, n, key)
  {
    if HasRowLike(readings, n, key) {
      var i: nat :| i < n && readings[i].Success? && Alike(KeyOf(readings[i].value), key);
      assert HasRowFor(readings, n, KeyOf(readings[i].value));
    }
    if k :| k in keys && Alike(k, key) {
      assert HasRowFor(readings, n, k);
    }
  }

  /** The pass has no error exactly when the first `n` rows are fine, and has then collected their keys. */
  ghost predicate PassFine(readings: seq<Reading>, n: nat, pass: Pass)
    requires n <= |readings|
  {
    && (pass.errors == [] <==> RowsFine(readings, n))
    && (pass.errors == [] ==>
          |pass.rows| == n && RowsAre(readings, pass.rows) && KeysAre(readings, n, pass.keys))
  }

  lemma PassStaysFine(readings: seq<Reading>, n: nat, pass: Pass)
    requires n < |readings| && PassFine(readings, n, pass)
    ensures PassFine(readings, n + 1, Step(pass, readings[n], n + 2))
  {
    FinePrefix(readings, n);
    StepFine(pass, readings[n], n + 2);
    if pass.errors == [] && RowFine(readings[n]) {
      TakenWhen(readings, n, pass.keys, KeyOf(readings[n].value));
      KeysGrow(readings, n, pass.keys);
    }
  }

  lemma {:induction false} FirstPassFine(readings: seq<Reading>, n: nat)
    requires n <= |readings|
    ensures PassFine(readings, n, FirstPass(readings, n))
  {
    if n > 0 {
      FirstPassFine(readings, n - 1);
      PassStaysFine(readings, n - 1, FirstPass(readings, n - 1));
    }
  }

  /** A row adds no error exactly when it is right in itself and its key is new. */
  lemma StepFine(pass: Pass, reading: Reading, rowNumber: nat)
    ensures var after := Step(pass, reading, rowNumber);
            && (after.errors == [] <==>
                  pass.errors == [] && RowFine(reading) && !Taken(pass.keys, KeyOf(reading.value)))
            && (after.errors == [] ==>
                  after == Pass(pass.rows + [reading.value], [], pass.keys + {KeyOf(reading.value)}))
  {
  }

  lemma {:induction false} SecondPassFine(pass: Pass, n: nat)
    requires n <= |pass.rows| && pass.errors == []
    ensures SecondPass(pass, n) == [] <==> forall i | 0 <= i < n :: RefersInside(pass.keys, pass.rows[i])
  {
    if n > 0 {
      SecondPassFine(pass, n - 1);
    }
  }

  lemma {:induction false} SecondPassKeeps(pass: Pass, n: nat)
    requires n <= |pass.rows|
    ensures pass.errors <= SecondPass(pass, n)
  {
    if n > 0 {
      SecondPassKeeps(pass, n - 1);
    }
  }

  // ---------- sorting ----------

  ghost predicate InOrder(errors: seq<ImportError>) {
    forall i, j | 0 <= i < j < |errors| :: errors[i].rowNumber <= errors[j].rowNumber
  }

  lemma {:induction false} InsertedInOrder(errors: seq<ImportError>, e: ImportError)
    requires InOrder(errors)
    ensures var inserted := Inserted(errors, e);
            && InOrder(inserted) && |inserted| == |errors| + 1
            && inserted[|errors|].rowNumber ==
                (if errors == [] then e.rowNumber else Max(e.rowNumber, errors[|errors| - 1].rowNumber))
  {
    if errors != [] && errors[|errors| - 1].rowNumber > e.rowNumber {
      InsertedInOrder(errors[..|errors| - 1], e);
    }
  }

  lemma {:induction false} InsertedHas(errors: seq<ImportError>, e: ImportError)
    ensures multiset(Inserted(errors, e)) == multiset(errors) + multiset{e}
  {
    if errors != [] && errors[|errors| - 1].rowNumber > e.rowNumber {
      InsertedHas(errors[..|errors| - 1], e);
      assert errors == errors[..|errors| - 1] + [errors[|errors| - 1]];
    }
  }

  /** Sorting reports the same errors, by row. */
  lemma {:induction false} SortedHasTheSame(errors: seq<ImportError>)
    ensures multiset(Sorted(errors)) == multiset(errors)
  {
    if errors != [] {
      SortedHasTheSame(errors[..|errors| - 1]);
      InsertedHas(Sorted(errors[..|errors| - 1]), errors[|errors| - 1]);
      assert errors == errors[..|errors| - 1] + [errors[|errors| - 1]];
    }
  }

  lemma {:induction false} SortedInOrder(errors: seq<ImportError>)
    ensures InOrder(Sorted(errors))
  {
    if errors != [] {
      SortedInOrder(errors[..|errors| - 1]);
      InsertedInOrder(Sorted(errors[..|errors| - 1]), errors[|errors| - 1]);
    }
  }

  lemma SortedEmpty(errors: seq<ImportError>)
    ensures Sorted(errors) == [] <==> errors == []
  {
    SortedHasTheSame(errors);
    assert |multiset(Sorted(errors))| == |multiset(errors)|;
  }

  // ---------- accepted files ----------

  /** A price's customer and product, and a stock's warehouse and product, have rows in the file. */
  ghost predicate RefersToRows(readings: seq<Reading>, row: ImportRow) {
    && (row.recordType == Price ==>
          && HasRowFor(readings, |readings|, Key(Customer, row.customerCode, ""))
          && HasRowFor(readings, |readings|, Key(Product, row.sku, "")))
    && (row.recordType == Stock ==>
          && HasRowFor(readings, |readings|, Key(Warehouse, row.warehouseCode, ""))
          && HasRowFor(readings, |readings|, Key(Product, row.sku, "")))
  }

  ghost predicate ReferencesFine(readings: seq<Reading>) {
    forall i: nat | i < |readings| && readings[i].Success? :: RefersToRows(readings, readings[i].value)
  }

  lemma SecondPassReferences(readings: seq<Reading>)
    requires FirstPass(readings, |readings|).errors == []
    ensures var pass := FirstPass(readings, |readings|);
            SecondPass(pass, |pass.rows|) == [] <==> ReferencesFine(readings)
  {
    var pass := FirstPass(readings, |readings|);
    FirstPassFine(readings, |readings|);
    SecondPassFine(pass, |pass.rows|);
    forall i: nat | i < |readings|
      ensures readings[i] == Success(pass.rows[i])
      ensures RefersInside(pass.keys, pass.rows[i]) <==> RefersToRows(readings, readings[i].value)
    {
    }
  }

  /** No error is reported exactly when every row is right in itself, no two keys read alike and, unless references
      outside the file are allowed, every reference is to a row of the file; then the rows are the table's. */
  lemma ParsedFine(upper: string -> string, table: seq<seq<string>>, external: bool)
    requires ParseTable(upper, table, external).Success?
    ensures var parsed, readings := ParseTable(upper, table, external).value, Readings(upper, table);
            && InOrder(parsed.errors)
            && (parsed.errors == [] <==> RowsFine(readings, |readings|) && (external || ReferencesFine(readings)))
            && (parsed.errors == [] ==> |parsed.rows| == |readings| && RowsAre(readings, parsed.rows))
  {
    var readings := Readings(upper, table);
    var pass := FirstPass(readings, |readings|);
    FirstPassFine(readings, |readings|);
    SecondPassKeeps(pass, |pass.rows|);
    SortedInOrder(Errors(pass, external));
    SortedEmpty(Errors(pass, external));
    if pass.errors == [] {
      SecondPassReferences(readings);
    }
  }

  /** Rows that are about different things, each with what its type needs. */
  ghost predicate Accepted(rows: seq<ImportRow>) {
    && (forall i | 0 <= i < |rows| :: FieldError(rows[i]).None?)
    && (forall i, j | 0 <= i < j < |rows| :: KeyOf(rows[i]) != KeyOf(rows[j]))
  }

  /** The rows of a file without errors can be imported one by one without meeting each other. */
  lemma ParseAccepts(upper: string -> string, content: string, external: bool)
    requires Parse(upper, content, external).Success? && Parse(upper, content, external).value.errors == []
    ensures Accepted(Parse(upper, content, external).value.rows)
  {
    var table := Csv.Read(Csv.StripBom(content)).value;
    ParsedFine(upper, table, external);
    var rows, readings := Parse(upper, content, external).value.rows, Readings(upper, table);
    forall i | 0 <= i < |rows| ensures RowFine(readings[i]) && readings[i] == Success(rows[i]) {
    }
  }
}
