/** Which rows of an import file are reported, and for what, stated on the cells of the file. */
module ImportFaults {
  import opened Wrappers
  import opened ImportParser
  import opened ImportRows
  import opened CsvExport
  import Csv

  // ---------- the faults ----------

  ghost predicate AreNine(rows: seq<seq<string>>) {
    forall i: nat | i < |rows| :: |rows[i]| == 9
  }

  predicate NamesParty(cells: seq<string>)
    requires |cells| == 9
  {
    cells[0] in {"customer", "supplier", "warehouse"}
  }

  predicate HasNoCode(upper: string -> string, cells: seq<string>)
    requires |cells| == 9
  {
    || (NamesParty(cells) && upper(cells[1]) in {"", ":"})
    || (cells[0] == "product" && upper(cells[5]) in {"", ":"})
    || (cells[0] == "price" && upper(cells[4]) == "" && upper(cells[5]) == "")
    || (cells[0] == "stock" && upper(cells[6]) == "" && upper(cells[5]) == "")
  }

  /** What a row with a code lacks. */
  ghost function Lack(cells: seq<string>): Option<RowError>
    requires |cells| == 9
  {
    if NamesParty(cells) && cells[2] == "" then Some(MissingName)
    else if cells[0] == "product" && (cells[2] == "" || cells[3] == "") then Some(MissingProductFields)
    else if cells[0] == "price" && !IsNumber(cells[8]) then Some(BadPrice)
    else if cells[0] == "stock" && !IsNumber(cells[7]) then Some(BadQuantity)
    else None
  }

  /** The row has all it needs, and reads unlike every good row before it. */
  ghost predicate IsGood(upper: string -> string, rows: seq<seq<string>>, i: nat)
    requires i < |rows| && AreNine(rows)
  {
    && !HasNoCode(upper, rows[i]) && Lack(rows[i]) == None
    && forall j: nat | j < i && IsGood(upper, rows, j) :: !ReadAlike(upper, rows[j], rows[i])
  }

  ghost predicate RepeatsGood(upper: string -> string, rows: seq<seq<string>>, i: nat)
    requires i < |rows| && AreNine(rows)
  {
    exists j: nat :: j < i && IsGood(upper, rows, j) && ReadAlike(upper, rows[j], rows[i])
  }

  /** What the row is reported for before references are looked at. */
  ghost function FirstFault(upper: string -> string, rows: seq<seq<string>>, i: nat): Option<RowError>
    requires i < |rows| && AreNine(rows)
  {
    if HasNoCode(upper, rows[i]) then Some(MissingKey)
    else if RepeatsGood(upper, rows, i) then Some(DuplicateKey)
    else Lack(rows[i])
  }

  ghost predicate HasGoodRow(upper: string -> string, rows: seq<seq<string>>, name: string, column: nat, code: string)
    requires AreNine(rows) && column < 9
  {
    exists j: nat ::
      j < |rows| && IsGood(upper, rows, j) && rows[j][0] == name && upper(rows[j][column]) == code
  }

  ghost predicate RefersToGood(upper: string -> string, rows: seq<seq<string>>, cells: seq<string>)
    requires AreNine(rows) && |cells| == 9
  {
    && (cells[0] == "price" ==> HasGoodRow(upper, rows, "customer", 1, upper(cells[4])))
    && (cells[0] == "stock" ==> HasGoodRow(upper, rows, "warehouse", 1, upper(cells[6])))
    && (cells[0] in {"price", "stock"} ==> HasGoodRow(upper, rows, "product", 5, upper(cells[5])))
  }

  /** What the row is reported for, if for anything. */
  ghost function Fault(upper: string -> string, rows: seq<seq<string>>, external: bool, i: nat): Option<RowError>
    requires i < |rows| && AreNine(rows)
  {
    if FirstFault(upper, rows, i).Some? then FirstFault(upper, rows, i)
    else if external || RefersToGood(upper, rows, rows[i]) then None
    else Some(UnknownReference)
  }

  // ---------- one row ----------

  lemma CodeMissing(upper: string -> string, row: ImportRow, cells: seq<string>)
    requires |cells| == 9 && HoldsCells(upper, row, cells)
    ensures KeyText(KeyOf(row)) in {"", ":"} <==> HasNoCode(upper, cells)
  {
    LacksCodeWhen(row);
  }

  lemma LackWhen(upper: string -> string, row: ImportRow, cells: seq<string>)
    requires |cells| == 9 && HoldsCells(upper, row, cells) && !HasNoCode(upper, cells)
    ensures FieldError(row) == Lack(cells)
  {
    NumberIsSome(row.quantity, cells[7]);
    NumberIsSome(row.unitPrice, cells[8]);
  }

  lemma GoodWhen(upper: string -> string, rows: seq<seq<string>>, i: nat)
    requires i < |rows| && AreNine(rows)
    ensures IsGood(upper, rows, i) <==> FirstFault(upper, rows, i) == None
  {
  }

  // ---------- the first pass ----------

  ghost predicate IsGoodKey(upper: string -> string, readings: seq<Reading>, rows: seq<seq<string>>, n: nat, key: Key)
    requires ReadingsAre(upper, readings, rows) && AreNine(rows) && n <= |rows|
  {
    exists j: nat :: j < n && IsGood(upper, rows, j) && KeyOf(readings[j].value) == key
  }

  ghost predicate KeysAreGood(upper: string -> string, readings: seq<Reading>, rows: seq<seq<string>>, n: nat,
                              keys: set<Key>)
    requires ReadingsAre(upper, readings, rows) && AreNine(rows) && n <= |rows|
  {
    forall key :: key in keys <==> IsGoodKey(upper, readings, rows, n, key)
  }

  ghost predicate IsFirstFault(upper: string -> string, rows: seq<seq<string>>, n: nat, e: ImportError)
    requires AreNine(rows) && n <= |rows|
  {
    exists j: nat :: j < n && e.rowNumber == j + 2 && FirstFault(upper, rows, j) == Some(e.error)
  }

  ghost predicate ErrorsAreFirst(upper: string -> string, rows: seq<seq<string>>, n: nat, errors: seq<ImportError>)
    requires AreNine(rows) && n <= |rows|
  {
    forall e :: e in errors <==> IsFirstFault(upper, rows, n, e)
  }

  lemma TakenIsRepeat(upper: string -> string, readings: seq<Reading>, rows: seq<seq<string>>, n: nat, keys: set<Key>)
    requires ReadingsAre(upper, readings, rows) && AreNine(rows) && n < |rows|
    requires KeysAreGood(upper, readings, rows, n, keys)
    ensures Taken(keys, KeyOf(readings[n].value)) <==> RepeatsGood(upper, rows, n)
  {
    var key := KeyOf(readings[n].value);
    if k :| k in keys && Alike(k, key) {
      assert IsGoodKey(upper, readings, rows, n, k);
      var j: nat :| j < n && IsGood(upper, rows, j) && KeyOf(readings[j].value) == k;
      AlikeWhen(upper, readings[j].value, readings[n].value, rows[j], rows[n]);
    }
    if j: nat :| j < n && IsGood(upper, rows, j) && ReadAlike(upper, rows[j], rows[n]) {
      AlikeWhen(upper, readings[j].value, readings[n].value, rows[j], rows[n]);
      assert IsGoodKey(upper, readings, rows, n, KeyOf(readings[j].value));
      assert KeyOf(readings[j].value) in keys;
    }
  }

  lemma RowFault(upper: string -> string, readings: seq<Reading>, rows: seq<seq<string>>, n: nat, keys: set<Key>)
    requires ReadingsAre(upper, readings, rows) && AreNine(rows) && n < |rows|
    requires KeysAreGood(upper, readings, rows, n, keys)
    ensures RowErrorOf(readings[n].value, keys) == FirstFault(upper, rows, n)
  {
    TakenIsRepeat(upper, readings, rows, n, keys);
    CodeMissing(upper, readings[n].value, rows[n]);
    if !HasNoCode(upper, rows[n]) {
      LackWhen(upper, readings[n].value, rows[n]);
    }
  }

  lemma KeysGrowGood(upper: string -> string, readings: seq<Reading>, rows: seq<seq<string>>, n: nat, keys: set<Key>)
    requires ReadingsAre(upper, readings, rows) && AreNine(rows) && n < |rows|
    requires KeysAreGood(upper, readings, rows, n, keys)
    ensures IsGood(upper, rows, n) ==>
              KeysAreGood(upper, readings, rows, n + 1, keys + {KeyOf(readings[n].value)})
    ensures !IsGood(upper, rows, n) ==> KeysAreGood(upper, readings, rows, n + 1, keys)
  {
    forall key
      ensures IsGoodKey(upper, readings, rows, n + 1, key) <==>
                || IsGoodKey(upper, readings, rows, n, key)
                || (IsGood(upper, rows, n) && KeyOf(readings[n].value) == key)
    {
      if IsGoodKey(upper, readings, rows, n, key) {
        var j: nat :| j < n && IsGood(upper, rows, j) && KeyOf(readings[j].value) == key;
        assert j < n + 1;
      }
    }
  }

  lemma ErrorsGrow(upper: string -> string, rows: seq<seq<string>>, n: nat, errors: seq<ImportError>)
    requires AreNine(rows) && n < |rows| && ErrorsAreFirst(upper, rows, n, errors)
    ensures match FirstFault(upper, rows, n)
            case None => ErrorsAreFirst(upper, rows, n + 1, errors)
            case Some(error) => ErrorsAreFirst(upper, rows, n + 1, errors + [ImportError(n + 2, error)])
  {
    forall e
      ensures IsFirstFault(upper, rows, n + 1, e) <==>
                || IsFirstFault(upper, rows, n, e)
                || (e.rowNumber == n + 2 && FirstFault(upper, rows, n) == Some(e.error))
    {
      if IsFirstFault(upper, rows, n, e) {
        var j: nat :| j < n && e.rowNumber == j + 2 && FirstFault(upper, rows, j) == Some(e.error);
        assert j < n + 1;
      }
    }
  }

  ghost predicate PassIsFirst(upper: string -> string, readings: seq<Reading>, rows: seq<seq<string>>, n: nat,
                              pass: Pass)
    requires ReadingsAre(upper, readings, rows) && AreNine(rows) && n <= |rows|
  {
    KeysAreGood(upper, readings, rows, n, pass.keys) && ErrorsAreFirst(upper, rows, n, pass.errors)
  }

  lemma StepFaults(upper: string -> string, readings: seq<Reading>, rows: seq<seq<string>>, n: nat, pass: Pass)
    requires ReadingsAre(upper, readings, rows) && AreNine(rows) && n < |rows|
    requires PassIsFirst(upper, readings, rows, n, pass)
    ensures PassIsFirst(upper, readings, rows, n + 1, Step(pass, readings[n], n + 2))
  {
    RowFault(upper, readings, rows, n, pass.keys);
    GoodWhen(upper, rows, n);
    KeysGrowGood(upper, readings, rows, n, pass.keys);
    ErrorsGrow(upper, rows, n, pass.errors);
  }

  lemma EmptyPassFaults(upper: string -> string, readings: seq<Reading>, rows: seq<seq<string>>)
    requires ReadingsAre(upper, readings, rows) && AreNine(rows)
    ensures PassIsFirst(upper, readings, rows, 0, Pass([], [], {}))
  {
  }

  ghost predicate StepKeeps(kept: (nat, Pass) -> bool, readings: seq<Reading>, n: nat, pass: Pass)
    requires n < |readings|
  {
    kept(n, pass) ==> kept(n + 1, Step(pass, readings[n], n + 2))
  }

  /** Whatever every step keeps, the first pass keeps. */
  lemma {:induction false} FirstPassPreserves(kept: (nat, Pass) -> bool, readings: seq<Reading>, n: nat)
    requires n <= |readings| && kept(0, Pass([], [], {}))
    requires forall m: nat, pass | m < |readings| :: StepKeeps(kept, readings, m, pass)
    ensures kept(n, FirstPass(readings, n))
  {
    if n > 0 {
      var before := FirstPass(readings, n - 1);
      FirstPassPreserves(kept, readings, n - 1);
      assert StepKeeps(kept, readings, n - 1, before);
    }
  }

  /** The first pass reports the first faults, and keeps the keys of the good rows. */
  lemma FirstPassFaults(upper: string -> string, readings: seq<Reading>, rows: seq<seq<string>>)
    requires ReadingsAre(upper, readings, rows) && AreNine(rows)
    ensures PassIsFirst(upper, readings, rows, |rows|, FirstPass(readings, |rows|))
  {
    var kept := (n: nat, pass: Pass) => n <= |rows| && PassIsFirst(upper, readings, rows, n, pass);
    EmptyPassFaults(upper, readings, rows);
    forall m: nat, pass | m < |readings| ensures StepKeeps(kept, readings, m, pass) {
      if PassIsFirst(upper, readings, rows, m, pass) {
        StepFaults(upper, readings, rows, m, pass);
      }
    }
    FirstPassPreserves(kept, readings, |rows|);
  }

  // ---------- the second pass ----------

  /** The row was not reported before, and refers to nothing in the file. */
  ghost predicate Dangles(pass: Pass, i: nat)
    requires i < |pass.rows|
  {
    !Blamed(pass.errors, pass.rows[i].rowNumber) && !RefersInside(pass.keys, pass.rows[i])
  }

  ghost predicate IsDangling(pass: Pass, n: nat, e: ImportError)
    requires n <= |pass.rows|
  {
    exists i: nat :: i < n && Dangles(pass, i) && e == ImportError(pass.rows[i].rowNumber, UnknownReference)
  }

  lemma {:induction false} SecondPassAdds(pass: Pass, n: nat)
    requires n <= |pass.rows|
    requires forall i: nat, j: nat | i < j < |pass.rows| :: pass.rows[i].rowNumber != pass.rows[j].rowNumber
    ensures forall e :: e in SecondPass(pass, n) <==> e in pass.errors || IsDangling(pass, n, e)
  {
    if n > 0 {
      SecondPassAdds(pass, n - 1);
      BlamedBefore(pass, n - 1);
      forall e
        ensures IsDangling(pass, n, e) <==>
                  || IsDangling(pass, n - 1, e)
                  || (Dangles(pass, n - 1) && e == ImportError(pass.rows[n - 1].rowNumber, UnknownReference))
      {
        if IsDangling(pass, n - 1, e) {
          var i: nat :| i < n - 1 && Dangles(pass, i) && e == ImportError(pass.rows[i].rowNumber, UnknownReference);
          assert i < n;
        }
      }
    }
  }

  /** The second pass so far reported other rows only. */
  lemma BlamedBefore(pass: Pass, n: nat)
    requires n < |pass.rows|
    requires forall i: nat, j: nat | i < j < |pass.rows| :: pass.rows[i].rowNumber != pass.rows[j].rowNumber
    requires forall e :: e in SecondPass(pass, n) <==> e in pass.errors || IsDangling(pass, n, e)
    ensures Blamed(SecondPass(pass, n), pass.rows[n].rowNumber) <==> Blamed(pass.errors, pass.rows[n].rowNumber)
  {
    var errors, number := SecondPass(pass, n), pass.rows[n].rowNumber;
    if m :| 0 <= m < |errors| && errors[m].rowNumber == number {
      assert errors[m] in errors;
      assert !IsDangling(pass, n, errors[m]);
      var l: nat :| l < |pass.errors| && pass.errors[l] == errors[m];
    }
    if m :| 0 <= m < |pass.errors| && pass.errors[m].rowNumber == number {
      assert pass.errors[m] in errors;
    }
  }

  // ---------- references ----------

  lemma GoodRowFor(upper: string -> string, readings: seq<Reading>, rows: seq<seq<string>>, recordType: RecordType,
                   column: nat, code: string)
    requires ReadingsAre(upper, readings, rows) && AreNine(rows)
    requires (recordType in {Customer, Warehouse} && column == 1) || (recordType == Product && column == 5)
    ensures IsGoodKey(upper, readings, rows, |rows|, Key(recordType, code, "")) <==>
              HasGoodRow(upper, rows, NameOf(recordType), column, code)
  {
    forall j: nat | j < |rows|
      ensures KeyOf(readings[j].value) == Key(recordType, code, "") <==>
                rows[j][0] == NameOf(recordType) && upper(rows[j][column]) == code
    {
      assert HoldsCells(upper, readings[j].value, rows[j]);
    }
  }

  lemma RefersWhen(upper: string -> string, readings: seq<Reading>, rows: seq<seq<string>>, keys: set<Key>, i: nat)
    requires ReadingsAre(upper, readings, rows) && AreNine(rows) && i < |rows|
    requires KeysAreGood(upper, readings, rows, |rows|, keys)
    ensures RefersInside(keys, readings[i].value) <==> RefersToGood(upper, rows, rows[i])
  {
    assert HoldsCells(upper, readings[i].value, rows[i]);
    GoodRowFor(upper, readings, rows, Customer, 1, upper(rows[i][4]));
    GoodRowFor(upper, readings, rows, Warehouse, 1, upper(rows[i][6]));
    GoodRowFor(upper, readings, rows, Product, 5, upper(rows[i][5]));
  }

  lemma BlamedWhen(upper: string -> string, rows: seq<seq<string>>, errors: seq<ImportError>, i: nat)
    requires AreNine(rows) && i < |rows| && ErrorsAreFirst(upper, rows, |rows|, errors)
    ensures Blamed(errors, i + 2) <==> FirstFault(upper, rows, i).Some?
  {
    if m :| 0 <= m < |errors| && errors[m].rowNumber == i + 2 {
      assert errors[m] in errors;
      assert IsFirstFault(upper, rows, |rows|, errors[m]);
    }
    if FirstFault(upper, rows, i).Some? {
      var e := ImportError(i + 2, FirstFault(upper, rows, i).value);
      assert IsFirstFault(upper, rows, |rows|, e);
      assert e in errors;
    }
  }

  // ---------- the file ----------

  lemma FirstErrorWhen(upper: string -> string, rows: seq<seq<string>>, errors: seq<ImportError>, i: nat,
                       error: RowError)
    requires AreNine(rows) && i < |rows| && ErrorsAreFirst(upper, rows, |rows|, errors)
    ensures ImportError(i + 2, error) in errors <==> FirstFault(upper, rows, i) == Some(error)
  {
    var e := ImportError(i + 2, error);
    assert IsFirstFault(upper, rows, |rows|, e) <==> FirstFault(upper, rows, i) == Some(error);
  }

  /** The pass has the rows of the readings. */
  ghost predicate PassHas(readings: seq<Reading>, pass: Pass) {
    && |pass.rows| == |readings|
    && forall i: nat | i < |readings| ::
         readings[i].Success? && readings[i].value == pass.rows[i] && pass.rows[i].rowNumber == i + 2
  }

  lemma DanglingWhen(readings: seq<Reading>, pass: Pass, i: nat, error: RowError)
    requires PassHas(readings, pass) && i < |readings|
    ensures ImportError(i + 2, error) in SecondPass(pass, |pass.rows|) <==>
              || ImportError(i + 2, error) in pass.errors
              || (error == UnknownReference && Dangles(pass, i))
  {
    var e := ImportError(i + 2, error);
    SecondPassAdds(pass, |pass.rows|);
    if error == UnknownReference && Dangles(pass, i) {
      assert e == ImportError(pass.rows[i].rowNumber, UnknownReference);
      assert IsDangling(pass, |pass.rows|, e);
    }
    if IsDangling(pass, |pass.rows|, e) {
      var j: nat :|
        j < |pass.rows| && Dangles(pass, j) && e == ImportError(pass.rows[j].rowNumber, UnknownReference);
      assert j == i;
    }
  }

  lemma ErrorsWhen(upper: string -> string, readings: seq<Reading>, rows: seq<seq<string>>, external: bool, i: nat,
                   error: RowError, pass: Pass)
    requires ReadingsAre(upper, readings, rows) && AreNine(rows) && i < |rows|
    requires PassIsFirst(upper, readings, rows, |rows|, pass) && PassHas(readings, pass)
    ensures ImportError(i + 2, error) in Errors(pass, external) <==> Fault(upper, rows, external, i) == Some(error)
  {
    FirstErrorWhen(upper, rows, pass.errors, i, error);
    if !external {
      DanglingWhen(readings, pass, i, error);
      BlamedWhen(upper, rows, pass.errors, i);
      RefersWhen(upper, readings, rows, pass.keys, i);
    }
  }

  lemma SortedKeeps(errors: seq<ImportError>, e: ImportError)
    ensures e in Sorted(errors) <==> e in errors
  {
    SortedHasTheSame(errors);
    assert e in Sorted(errors) <==> e in multiset(Sorted(errors));
    assert e in errors <==> e in multiset(errors);
  }

  /** A row is reported exactly for its fault, and the errors are in the order of their rows. */
  ghost predicate FaultsReported(upper: string -> string, rows: seq<seq<string>>, external: bool,
                                 errors: seq<ImportError>)
  {
    && AreNine(rows) && InOrder(errors)
    && forall i: nat, error | i < |rows| ::
         ImportError(i + 2, error) in errors <==> Fault(upper, rows, external, i) == Some(error)
  }

  lemma TableFaults(upper: string -> string, readings: seq<Reading>, rows: seq<seq<string>>, external: bool, pass: Pass)
    requires ReadingsAre(upper, readings, rows) && AreNine(rows)
    requires PassIsFirst(upper, readings, rows, |rows|, pass) && PassHas(readings, pass)
    ensures FaultsReported(upper, rows, external, Sorted(Errors(pass, external)))
  {
    var errors := Errors(pass, external);
    SortedInOrder(errors);
    forall i: nat, error | i < |rows|
      ensures ImportError(i + 2, error) in Sorted(errors) <==> Fault(upper, rows, external, i) == Some(error)
    {
      ErrorsWhen(upper, readings, rows, external, i, error, pass);
      SortedKeeps(errors, ImportError(i + 2, error));
    }
  }

  lemma PassIsBoth(upper: string -> string, readings: seq<Reading>, rows: seq<seq<string>>)
    requires ReadingsAre(upper, readings, rows) && AreNine(rows)
    ensures var pass := FirstPass(readings, |rows|);
            PassIsFirst(upper, readings, rows, |rows|, pass) && PassHas(readings, pass)
  {
    FirstPassFaults(upper, readings, rows);
    FirstPassKeepsRows(readings, |rows|);
  }

  lemma ParseIsTable(upper: string -> string, content: string, table: seq<seq<string>>, external: bool)
    requires Csv.Read(Csv.StripBom(content)) == Success(table)
    ensures Parse(upper, content, external) == ParseTable(upper, table, external)
  {
  }

  lemma TableIsPass(upper: string -> string, table: seq<seq<string>>, external: bool, pass: Pass)
    requires 1 <= |table| <= 2001 && Csv.Join(Cleaned(table[0]), ",") == Csv.Join(HEADER, ",")
    requires pass == FirstPass(Readings(upper, table), |table| - 1)
    ensures ParseTable(upper, table, external) == Success(Parsed(pass.rows, Sorted(Errors(pass, external))))
  {
  }

  lemma FileErrorsAre(upper: string -> string, content: string, doc: seq<Record>, rows: seq<seq<string>>,
                      external: bool, pass: Pass)
    requires IsFile(content, doc, rows) && |rows| <= 2000
    requires pass == FirstPass(Readings(upper, TableOf(doc)), |rows|)
    ensures Parse(upper, content, external).Success?
    ensures Parse(upper, content, external).value.errors == Sorted(Errors(pass, external))
  {
    FileIsRead(content, doc, rows);
    ParseIsTable(upper, content, TableOf(doc), external);
    TableIsPass(upper, TableOf(doc), external, pass);
  }

  /** Every row of a file is reported for its fault, if it has one, and for nothing else. */
  lemma FileFaults(upper: string -> string, content: string, doc: seq<Record>, rows: seq<seq<string>>, external: bool)
    requires IsFile(content, doc, rows) && |rows| <= 2000
    ensures Parse(upper, content, external).Success?
    ensures FaultsReported(upper, rows, external, Parse(upper, content, external).value.errors)
  {
    RowsAreRead(upper, content, doc, rows);
    var readings := Readings(upper, TableOf(doc));
    var pass := FirstPass(readings, |rows|);
    FileErrorsAre(upper, content, doc, rows, external, pass);
    PassIsBoth(upper, readings, rows);
    TableFaults(upper, readings, rows, external, pass);
  }
}
