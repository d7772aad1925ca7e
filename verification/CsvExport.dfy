/** The CSV writer of the data exports, and the law that ties it to the reader of the initial import. */
module CsvExport {
  import opened Wrappers
  import opened Csv

  // ---------- the writer ----------

  /** A number arrives as the text it prints as. */
  datatype Cell = Text(text: string) | Number(text: string) | Null

  predicate IsDigits(text: string) {
    text != "" && forall i | 0 <= i < |text| :: '0' <= text[i] <= '9'
  }

  /** An optional sign, digits, and optionally a point with more digits. */
  predicate IsNumeral(text: string) {
    var digits := if text != "" && text[0] == '-' then text[1..] else text;
    || IsDigits(digits)
    || exists i | 0 <= i < |digits| :: digits[i] == '.' && IsDigits(digits[..i]) && IsDigits(digits[i + 1..])
  }

  predicate IsFormulaStart(c: char) {
    c in {'=', '+', '-', '@', '\t', '\r'}
  }

  /** Text that a spreadsheet could take for a formula gets an apostrophe in front. */
  function SafeText(cell: Cell): string {
    match cell
    case Null => ""
    case Number(text) => text
    case Text(text) =>
      if IsNumeral(text) then text
      else if text != "" && IsFormulaStart(text[0]) then "'" + text
      else text
  }

  /** No character that would need quotes. */
  predicate IsPlain(text: string) {
    forall i | 0 <= i < |text| :: text[i] !in {QUOTE, ',', '\r', '\n'}
  }

  function Doubled(text: string): string {
    if text == "" then ""
    else (if text[0] == QUOTE then [QUOTE, QUOTE] else [text[0]]) + Doubled(text[1..])
  }

  function Quoted(text: string): string {
    [QUOTE] + Doubled(text) + [QUOTE]
  }

  function CsvCell(cell: Cell): string {
    if IsPlain(SafeText(cell)) then SafeText(cell) else Quoted(SafeText(cell))
  }

  function Mapped<A, B>(items: seq<A>, f: A -> B): (mapped: seq<B>)
    ensures |mapped| == |items| && forall i | 0 <= i < |items| :: mapped[i] == f(items[i])
  {
    seq(|items|, i requires 0 <= i < |items| => f(items[i]))
  }

  function RowText(row: seq<Cell>): string {
    Join(Mapped(row, (cell: Cell) => CsvCell(cell)), ",")
  }

  /** The exported file: a byte order mark, and the header row and data rows with CRLF line ends. */
  function Export(headers: seq<Cell>, rows: seq<seq<Cell>>): string {
    [BOM] + Join(Mapped([headers] + rows, (row: seq<Cell>) => RowText(row)), "\r\n") + "\r\n"
  }

  // ---------- all ways to write a table ----------

  /** A value, and whether it is put in quotes; a value that is not plain must be. */
  datatype Field = Field(value: string, quoted: bool)

  /** A row of fields, ended by CRLF or by LF alone. */
  datatype Record = Record(fields: seq<Field>, crlf: bool)

  predicate FieldsWritable(fields: seq<Field>) {
    forall c | 0 <= c < |fields| :: fields[c].quoted || IsPlain(fields[c].value)
  }

  predicate IsWritable(doc: seq<Record>) {
    forall r | 0 <= r < |doc| :: FieldsWritable(doc[r].fields)
  }

  function FieldText(f: Field): string {
    if f.quoted then Quoted(f.value) else f.value
  }

  /** The row's text from field `c` on. */
  function FieldsFrom(fields: seq<Field>, c: nat): string
    decreases |fields| - c
  {
    if c >= |fields| then ""
    else if c == |fields| - 1 then FieldText(fields[c])
    else FieldText(fields[c]) + "," + FieldsFrom(fields, c + 1)
  }

  function FieldsText(fields: seq<Field>): string {
    FieldsFrom(fields, 0)
  }

  function LineEnd(crlf: bool): string {
    if crlf then "\r\n" else "\n"
  }

  function Write(doc: seq<Record>): string {
    if doc == [] then "" else FieldsText(doc[0].fields) + LineEnd(doc[0].crlf) + Write(doc[1..])
  }

  function Values(fields: seq<Field>): (values: seq<string>)
    ensures |values| == |fields| && forall c | 0 <= c < |fields| :: values[c] == fields[c].value
  {
    seq(|fields|, c requires 0 <= c < |fields| => fields[c].value)
  }

  function TableOf(doc: seq<Record>): (table: seq<seq<string>>)
    ensures |table| == |doc| && forall r | 0 <= r < |doc| :: table[r] == Values(doc[r].fields)
  {
    seq(|doc|, r requires 0 <= r < |doc| => Values(doc[r].fields))
  }

  // ---------- reading back ----------

  /** The piece stands in the text at position `i`. */
  predicate StandsAt(text: string, i: nat, piece: string) {
    i + |piece| <= |text| && forall k | 0 <= k < |piece| :: text[i + k] == piece[k]
  }

  lemma StandsApart(text: string, i: nat, first: string, second: string)
    requires StandsAt(text, i, first + second)
    ensures StandsAt(text, i, first) && StandsAt(text, i + |first|, second)
  {
    var whole := first + second;
    forall k | 0 <= k < |first| ensures text[i + k] == first[k] {
      assert whole[k] == first[k];
    }
    forall k | 0 <= k < |second| ensures text[i + |first| + k] == second[k] {
      assert whole[|first| + k] == second[k];
    }
  }

  lemma StandThree(text: string, i: nat, a: string, b: string, c: string)
    requires StandsAt(text, i, a + b + c)
    ensures StandsAt(text, i, a) && StandsAt(text, i + |a|, b) && StandsAt(text, i + |a| + |b|, c)
  {
    assert a + b + c == a + (b + c);
    StandsApart(text, i, a, b + c);
    StandsApart(text, i + |a|, b, c);
  }

  lemma StandsFirst(text: string, i: nat, piece: string)
    requires StandsAt(text, i, piece) && piece != ""
    ensures i < |text| && text[i] == piece[0] && StandsAt(text, i + 1, piece[1..])
  {
    assert text[i + 0] == piece[0];
    forall k | 0 <= k < |piece| - 1 ensures text[i + 1 + k] == piece[1..][k] {
      assert text[i + (1 + k)] == piece[1 + k];
    }
  }

  /** A comma or a line end, with or without its carriage return, follows. */
  predicate DelimitedAt(text: string, j: nat) {
    && j < |text|
    && (text[j] == ',' || text[j] == '\n' || (text[j] == '\r' && j + 1 < |text| && text[j + 1] == '\n'))
  }

  function EndAt(text: string, j: nat): nat
    requires DelimitedAt(text, j)
  {
    if text[j] == '\r' then j + 1 else j
  }

  lemma {:induction false} ReadQuotedBack(text: string, i: nat, value: string)
    requires StandsAt(text, i, Doubled(value) + [QUOTE])
    requires var j := i + |Doubled(value)| + 1; j < |text| ==> text[j] != QUOTE
    ensures ReadQuoted(text, i) == Some((value, i + |Doubled(value)| + 1))
    decreases |value|
  {
    if value == "" {
      StandsFirst(text, i, Doubled(value) + [QUOTE]);
    } else {
      var head, rest := if value[0] == QUOTE then [QUOTE, QUOTE] else [value[0]], Doubled(value[1..]) + [QUOTE];
      assert Doubled(value) + [QUOTE] == head + rest;
      StandsApart(text, i, head, rest);
      StandsFirst(text, i, head);
      if value[0] == QUOTE {
        StandsFirst(text, i + 1, head[1..]);
      }
      ReadQuotedBack(text, i + |head|, value[1..]);
      assert value == [value[0]] + value[1..];
    }
  }

  lemma {:induction false} ReadPlainBack(text: string, i: nat, value: string, field: string)
    requires StandsAt(text, i, value) && IsPlain(value) && DelimitedAt(text, i + |value|)
    ensures ReadCell(text, i, field) == Success((field + value, EndAt(text, i + |value|)))
    decreases |value|
  {
    if value == "" {
      assert field + value == field;
    } else {
      StandsFirst(text, i, value);
      ReadPlainBack(text, i + 1, value[1..], field + [value[0]]);
      assert field + [value[0]] + value[1..] == field + value;
    }
  }

  lemma ReadFieldBack(text: string, i: nat, f: Field)
    requires StandsAt(text, i, FieldText(f)) && (f.quoted || IsPlain(f.value)) && DelimitedAt(text, i + |FieldText(f)|)
    ensures ReadCell(text, i, "") == Success((f.value, EndAt(text, i + |FieldText(f)|)))
  {
    if f.quoted {
      assert Quoted(f.value) == [QUOTE] + (Doubled(f.value) + [QUOTE]);
      StandsApart(text, i, [QUOTE], Doubled(f.value) + [QUOTE]);
      StandsFirst(text, i, [QUOTE]);
      ReadQuotedBack(text, i + 1, f.value);
      var j := i + |Quoted(f.value)|;
      assert StandsAt(text, j, "");
      ReadPlainBack(text, j, "", f.value);
      assert f.value + "" == f.value;
    } else {
      ReadPlainBack(text, i, f.value, "");
      assert "" + f.value == f.value;
    }
  }

  /** What is read from field `c` on; a row without fields reads as one empty cell. */
  function ValuesFrom(fields: seq<Field>, c: nat): seq<string> {
    if c >= |fields| then [""] else Values(fields)[c..]
  }

  function ValuesRead(fields: seq<Field>): seq<string> {
    ValuesFrom(fields, 0)
  }

  predicate LineEndsAt(text: string, j: nat) {
    DelimitedAt(text, j) && text[EndAt(text, j)] == '\n'
  }

  lemma CommaStands(text: string, i: nat, first: string, more: string)
    requires StandsAt(text, i, first + "," + more)
    ensures var j := i + |first|;
            StandsAt(text, i, first) && j < |text| && text[j] == ',' && StandsAt(text, j + 1, more)
  {
    StandThree(text, i, first, ",", more);
    StandsFirst(text, i + |first|, ",");
  }

  lemma ReadRowOn(text: string, i: nat, cell: string, j: nat, rest: seq<string>, k: nat)
    requires i <= j < |text| && text[j] == ',' && ReadCell(text, i, "") == Success((cell, j))
    requires ReadRow(text, j + 1) == Success((rest, k))
    ensures ReadRow(text, i) == Success(([cell] + rest, k))
  {
  }

  lemma ReadRowEnd(text: string, i: nat, cell: string, j: nat)
    requires i <= j < |text| && text[j] == '\n' && ReadCell(text, i, "") == Success((cell, j))
    ensures ReadRow(text, i) == Success(([cell], j))
  {
  }

  lemma ReadLastField(text: string, i: nat, fields: seq<Field>, c: nat, end: nat)
    requires StandsAt(text, i, FieldsFrom(fields, c)) && FieldsWritable(fields) && c + 1 >= |fields|
    requires end == i + |FieldsFrom(fields, c)| && LineEndsAt(text, end)
    ensures ReadRow(text, i) == Success((ValuesFrom(fields, c), EndAt(text, end)))
  {
    if c >= |fields| {
      ReadPlainBack(text, i, "", "");
      ReadRowEnd(text, i, "", EndAt(text, end));
    } else {
      ReadFieldBack(text, i, fields[c]);
      ReadRowEnd(text, i, fields[c].value, EndAt(text, end));
      assert ValuesFrom(fields, c) == [fields[c].value];
    }
  }

  lemma ReadNextField(text: string, i: nat, fields: seq<Field>, c: nat, end: nat)
    requires c + 1 < |fields| && FieldsWritable(fields)
    requires var j := i + |FieldText(fields[c])|;
             && StandsAt(text, i, FieldText(fields[c])) && j < |text| && text[j] == ','
             && ReadRow(text, j + 1) == Success((ValuesFrom(fields, c + 1), end))
    ensures ReadRow(text, i) == Success((ValuesFrom(fields, c), end))
  {
    var j := i + |FieldText(fields[c])|;
    ReadFieldBack(text, i, fields[c]);
    ReadRowOn(text, i, fields[c].value, j, ValuesFrom(fields, c + 1), end);
    assert ValuesFrom(fields, c) == [fields[c].value] + ValuesFrom(fields, c + 1);
  }

  lemma FieldStands(text: string, i: nat, fields: seq<Field>, c: nat, end: nat)
    requires c + 1 < |fields| && StandsAt(text, i, FieldsFrom(fields, c)) && end == i + |FieldsFrom(fields, c)|
    ensures var j := i + |FieldText(fields[c])|;
            && StandsAt(text, i, FieldText(fields[c])) && j < |text| && text[j] == ','
            && StandsAt(text, j + 1, FieldsFrom(fields, c + 1)) && end == j + 1 + |FieldsFrom(fields, c + 1)|
  {
    CommaStands(text, i, FieldText(fields[c]), FieldsFrom(fields, c + 1));
  }

  lemma {:induction false} ReadRowBack(text: string, i: nat, fields: seq<Field>, c: nat, end: nat)
    requires StandsAt(text, i, FieldsFrom(fields, c)) && FieldsWritable(fields)
    requires end == i + |FieldsFrom(fields, c)| && LineEndsAt(text, end)
    ensures ReadRow(text, i) == Success((ValuesFrom(fields, c), EndAt(text, end)))
    decreases |fields| - c
  {
    if c + 1 >= |fields| {
      ReadLastField(text, i, fields, c, end);
    } else {
      FieldStands(text, i, fields, c, end);
      ReadRowBack(text, i + |FieldText(fields[c])| + 1, fields, c + 1, end);
      ReadNextField(text, i, fields, c, EndAt(text, end));
    }
  }

  function RowsRead(doc: seq<Record>): seq<seq<string>> {
    if doc == [] then [[""]] else [ValuesRead(doc[0].fields)] + RowsRead(doc[1..])
  }

  lemma LineEndStands(text: string, j: nat, crlf: bool)
    requires StandsAt(text, j, LineEnd(crlf))
    ensures LineEndsAt(text, j) && EndAt(text, j) + 1 == j + |LineEnd(crlf)|
  {
    StandsFirst(text, j, LineEnd(crlf));
    if crlf {
      StandsFirst(text, j + 1, LineEnd(crlf)[1..]);
    }
  }

  lemma RecordStands(text: string, i: nat, doc: seq<Record>)
    requires doc != [] && StandsAt(text, i, Write(doc))
    ensures var line, end, more := FieldsText(doc[0].fields), LineEnd(doc[0].crlf), Write(doc[1..]);
            var j := i + |line|;
            && i + |Write(doc)| == j + |end| + |more|
            && StandsAt(text, i, line) && StandsAt(text, j, end) && StandsAt(text, j + |end|, more)
  {
    StandThree(text, i, FieldsText(doc[0].fields), LineEnd(doc[0].crlf), Write(doc[1..]));
  }

  lemma ReadRowsOn(text: string, i: nat, row: seq<string>, j: nat, rest: seq<seq<string>>)
    requires i <= j < |text| && text[j] == '\n' && ReadRow(text, i) == Success((row, j))
    requires ReadRows(text, j + 1) == Success(rest)
    ensures ReadRows(text, i) == Success([row] + rest)
  {
  }

  lemma ReadNothing(text: string)
    ensures ReadRows(text, |text|) == Success([[""]])
  {
    assert ReadCell(text, |text|, "") == Success(("", |text|));
    assert ReadRow(text, |text|) == Success(([""], |text|));
  }

  lemma ReadRecord(text: string, i: nat, record: Record, rest: seq<seq<string>>)
    requires StandsAt(text, i, FieldsText(record.fields)) && FieldsWritable(record.fields)
    requires var j := i + |FieldsText(record.fields)|;
             && StandsAt(text, j, LineEnd(record.crlf))
             && ReadRows(text, j + |LineEnd(record.crlf)|) == Success(rest)
    ensures ReadRows(text, i) == Success([ValuesRead(record.fields)] + rest)
  {
    var j := i + |FieldsText(record.fields)|;
    LineEndStands(text, j, record.crlf);
    ReadRowBack(text, i, record.fields, 0, j);
    ReadRowsOn(text, i, ValuesRead(record.fields), EndAt(text, j), rest);
  }

  lemma RecordsRest(doc: seq<Record>)
    requires doc != [] && IsWritable(doc)
    ensures FieldsWritable(doc[0].fields) && IsWritable(doc[1..])
  {
  }

  lemma {:induction false} ReadRowsBack(text: string, i: nat, doc: seq<Record>)
    requires StandsAt(text, i, Write(doc)) && i + |Write(doc)| == |text| && IsWritable(doc)
    ensures ReadRows(text, i) == Success(RowsRead(doc))
    decreases |doc|
  {
    if doc == [] {
      ReadNothing(text);
    } else {
      RecordStands(text, i, doc);
      RecordsRest(doc);
      ReadRowsBack(text, i + |FieldsText(doc[0].fields)| + |LineEnd(doc[0].crlf)|, doc[1..]);
      ReadRecord(text, i, doc[0], RowsRead(doc[1..]));
    }
  }

  // ---------- blank rows do not matter ----------

  lemma {:induction false} NonBlankConcat(rows: seq<seq<string>>, more: seq<seq<string>>)
    ensures NonBlank(rows + more) == NonBlank(rows) + NonBlank(more)
  {
    if more == [] {
      assert rows + more == rows;
    } else {
      var init := more[..|more| - 1];
      assert (rows + more)[..|rows + more| - 1] == rows + init;
      NonBlankConcat(rows, init);
    }
  }

  lemma NonBlankOne(row: seq<string>)
    ensures NonBlank([row]) == if IsBlank(row) then [] else [row]
  {
    assert [row][..0] == [];
  }

  lemma EmptyRowIsBlank(fields: seq<Field>)
    ensures NonBlank([ValuesRead(fields)]) == NonBlank([Values(fields)])
  {
    NonBlankOne(ValuesRead(fields));
    NonBlankOne(Values(fields));
  }

  lemma TableSplits(doc: seq<Record>)
    requires doc != []
    ensures TableOf(doc) == [Values(doc[0].fields)] + TableOf(doc[1..])
  {
  }

  lemma {:induction false} RowsReadAreTable(doc: seq<Record>)
    ensures NonBlank(RowsRead(doc)) == NonBlank(TableOf(doc))
  {
    if doc == [] {
      NonBlankOne([""]);
    } else {
      RowsReadAreTable(doc[1..]);
      NonBlankConcat([ValuesRead(doc[0].fields)], RowsRead(doc[1..]));
      TableSplits(doc);
      NonBlankConcat([Values(doc[0].fields)], TableOf(doc[1..]));
      EmptyRowIsBlank(doc[0].fields);
    }
  }

  /** However a table is written by rules 5 to 7 of section 2 of RFC 4180, any cells quoted that need not be and each
      line ended by CRLF or LF, reading it gives the table without its blank rows, as long as it fits. */
  lemma ReadsWhatIsWritten(doc: seq<Record>)
    requires IsWritable(doc)
    ensures Read(Write(doc)) == if Utf8Length(Write(doc)) > LIMIT then Failure(TooLarge)
                else Success(NonBlank(TableOf(doc)))
  {
    ReadRowsBack(Write(doc), 0, doc);
    RowsReadAreTable(doc);
  }

  // ---------- the export is one such way ----------

  function FieldOf(cell: Cell): Field {
    Field(SafeText(cell), !IsPlain(SafeText(cell)))
  }

  function RecordOf(row: seq<Cell>): Record {
    Record(Mapped(row, (cell: Cell) => FieldOf(cell)), true)
  }

  function RecordsOf(table: seq<seq<Cell>>): seq<Record> {
    Mapped(table, (row: seq<Cell>) => RecordOf(row))
  }

  function SafeTable(table: seq<seq<Cell>>): seq<seq<string>> {
    Mapped(table, (row: seq<Cell>) => Mapped(row, (cell: Cell) => SafeText(cell)))
  }

  lemma {:induction false} JoinIsFields(row: seq<Cell>, c: nat)
    requires c < |row|
    ensures Join(Mapped(row, (cell: Cell) => CsvCell(cell))[c..], ",") == FieldsFrom(RecordOf(row).fields, c)
    decreases |row| - c
  {
    var cells := Mapped(row, (cell: Cell) => CsvCell(cell));
    if c + 1 < |row| {
      JoinIsFields(row, c + 1);
      assert cells[c..][1..] == cells[c + 1..];
    }
  }

  lemma RowTextIsFields(row: seq<Cell>)
    ensures RowText(row) == FieldsText(RecordOf(row).fields)
  {
    if row != [] {
      JoinIsFields(row, 0);
      var cells := Mapped(row, (cell: Cell) => CsvCell(cell));
      assert cells[0..] == cells;
    }
  }

  lemma {:induction false} LinesAreRecords(table: seq<seq<Cell>>)
    requires table != []
    ensures Join(Mapped(table, (row: seq<Cell>) => RowText(row)), "\r\n") + "\r\n" == Write(RecordsOf(table))
  {
    var lines := Mapped(table, (row: seq<Cell>) => RowText(row));
    RowTextIsFields(table[0]);
    assert RecordsOf(table)[1..] == RecordsOf(table[1..]);
    if |table| == 1 {
      assert Write(RecordsOf(table)) == FieldsText(RecordOf(table[0]).fields) + LineEnd(true) + Write([]);
    } else {
      assert lines[1..] == Mapped(table[1..], (row: seq<Cell>) => RowText(row));
      LinesAreRecords(table[1..]);
    }
  }

  lemma RecordsHoldTable(table: seq<seq<Cell>>)
    ensures TableOf(RecordsOf(table)) == SafeTable(table)
  {
    forall r | 0 <= r < |table| ensures TableOf(RecordsOf(table))[r] == SafeTable(table)[r] {
      assert TableOf(RecordsOf(table))[r] == Values(RecordOf(table[r]).fields);
    }
  }

  /** Importing an exported file gives back the exported table, made safe for spreadsheets and without its blank rows,
      for every mix of quotes, commas and line breaks in its cells; only a file over 1 MiB is refused. */
  lemma ImportReadsExport(headers: seq<Cell>, rows: seq<seq<Cell>>)
    ensures var text := StripBom(Export(headers, rows));
            Read(text) == if Utf8Length(text) > LIMIT then Failure(TooLarge)
                else Success(NonBlank(SafeTable([headers] + rows)))
  {
    var table := [headers] + rows;
    LinesAreRecords(table);
    var doc := RecordsOf(table);
    assert Export(headers, rows)[1..] == Write(doc);
    ReadsWhatIsWritten(doc);
    RecordsHoldTable(table);
  }

  /** No exported text begins like a formula unless it is a plain number, and the apostrophe is all that is ever
      added. */
  lemma ExportIsNoFormula(text: string)
    ensures SafeText(Text(text)) == text || SafeText(Text(text)) == "'" + text
    ensures SafeText(Text(text)) != "" && IsFormulaStart(SafeText(Text(text))[0]) ==>
              IsNumeral(text) && SafeText(Text(text)) == text
    ensures SafeText(Text(text)) == text <==> text == "" || !IsFormulaStart(text[0]) || IsNumeral(text)
  {
  }
}
