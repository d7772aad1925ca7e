/** Import files with one stock row, as text, and what the parser makes of them. */
module StockFiles {
  import opened Wrappers
  import opened ImportParser
  import opened CsvExport
  import Csv

  // ---------- the file ----------

  function PlainRecord(values: seq<string>): Record {
    Record(seq(|values|, c requires 0 <= c < |values| => Field(values[c], false)), true)
  }

  /** The file's only row stocks product P in warehouse W. */
  function RowValues(digits: string): seq<string> {
    ["stock", "", "", "", "", "P", "W", digits, ""]
  }

  function StockFile(digits: string): string {
    Write([PlainRecord(HEADER)] + [PlainRecord(RowValues(digits))])
  }

  predicate IsQuantity(digits: string) {
    0 < |digits| <= 10 && forall i | 0 <= i < |digits| :: '0' <= digits[i] <= '9'
  }

  lemma {:induction false} Utf8AtMost(text: string)
    ensures Csv.Utf8Length(text) <= 4 * |text|
  {
    if text != "" {
      Utf8AtMost(text[..|text| - 1]);
    }
  }

  lemma {:induction false} FieldsAtMost(values: seq<string>, c: nat)
    requires forall k | 0 <= k < |values| :: |values[k]| <= 13
    requires c <= |values|
    ensures |FieldsFrom(PlainRecord(values).fields, c)| <= 14 * (|values| - c)
    decreases |values| - c
  {
    if c < |values| {
      FieldsAtMost(values, c + 1);
    }
  }

  lemma WriteTwo(a: Record, b: Record)
    ensures Write([a] + [b]) == FieldsText(a.fields) + LineEnd(a.crlf) + (FieldsText(b.fields) + LineEnd(b.crlf))
  {
    assert ([a] + [b])[1..] == [b];
    assert [b][1..] == [];
    assert Write([b]) == FieldsText(b.fields) + LineEnd(b.crlf) + "";
  }

  lemma FileFits(digits: string)
    requires IsQuantity(digits)
    ensures Csv.Utf8Length(StockFile(digits)) <= Csv.LIMIT
    ensures StockFile(digits) != "" && StockFile(digits)[0] == 'r'
  {
    WriteTwo(PlainRecord(HEADER), PlainRecord(RowValues(digits)));
    FieldsAtMost(HEADER, 0);
    FieldsAtMost(RowValues(digits), 0);
    Utf8AtMost(StockFile(digits));
    var fields := PlainRecord(HEADER).fields;
    assert FieldsText(fields) == "recordType" + "," + FieldsFrom(fields, 1);
  }

  lemma PlainIsWritable(values: seq<string>)
    requires forall k | 0 <= k < |values| :: IsPlain(values[k])
    ensures FieldsWritable(PlainRecord(values).fields) && Values(PlainRecord(values).fields) == values
  {
  }

  lemma TwoRecords(values: seq<string>, more: seq<string>)
    requires forall k | 0 <= k < |values| :: IsPlain(values[k])
    requires forall k | 0 <= k < |more| :: IsPlain(more[k])
    ensures var doc := [PlainRecord(values)] + [PlainRecord(more)]; IsWritable(doc) && TableOf(doc) == [values] + [more]
  {
    PlainIsWritable(values);
    PlainIsWritable(more);
  }

  lemma TwoRowsStay(values: seq<string>, more: seq<string>)
    requires !Csv.IsBlank(values) && !Csv.IsBlank(more)
    ensures Csv.NonBlank([values] + [more]) == [values] + [more]
  {
    NonBlankConcat([values], [more]);
    NonBlankOne(values);
    NonBlankOne(more);
  }

  lemma TwoRowsRead(values: seq<string>, more: seq<string>)
    requires forall k | 0 <= k < |values| :: IsPlain(values[k])
    requires forall k | 0 <= k < |more| :: IsPlain(more[k])
    requires !Csv.IsBlank(values) && !Csv.IsBlank(more)
    requires var text := Write([PlainRecord(values)] + [PlainRecord(more)]);
             Csv.Utf8Length(text) <= Csv.LIMIT && text != "" && text[0] == 'r'
    ensures Csv.Read(Csv.StripBom(Write([PlainRecord(values)] + [PlainRecord(more)]))) == Success([values] + [more])
  {
    TwoRecords(values, more);
    TwoRowsStay(values, more);
    ReadsWhatIsWritten([PlainRecord(values)] + [PlainRecord(more)]);
  }

  lemma NotBlank(digits: string)
    ensures !Csv.IsBlank(HEADER) && !Csv.IsBlank(RowValues(digits))
  {
    assert HEADER[0][0] == 'r' && RowValues(digits)[0][0] == 's';
  }

  lemma HeaderIsPlain()
    ensures forall k | 0 <= k < |HEADER| :: IsPlain(HEADER[k])
  {
  }

  lemma RowIsPlain(digits: string)
    requires IsQuantity(digits)
    ensures forall k | 0 <= k < |RowValues(digits)| :: IsPlain(RowValues(digits)[k])
  {
  }

  lemma FileReads(digits: string)
    requires IsQuantity(digits)
    ensures Csv.Read(Csv.StripBom(StockFile(digits))) == Success([HEADER] + [RowValues(digits)])
  {
    FileFits(digits);
    HeaderIsPlain();
    RowIsPlain(digits);
    NotBlank(digits);
    TwoRowsRead(HEADER, RowValues(digits));
  }

  // ---------- what the parser makes of it ----------

  lemma CleanIsTight(text: string)
    requires text != "" ==> !Csv.IsSpace(text[0]) && !Csv.IsSpace(text[|text| - 1])
    ensures Clean(text) == text
  {
  }

  lemma HeaderIsClean()
    ensures Cleaned(HEADER) == HEADER
  {
    forall i | 0 <= i < |HEADER| ensures Clean(HEADER[i]) == HEADER[i] {
      CleanIsTight(HEADER[i]);
    }
  }

  /** The conversion to upper case, as far as the file needs it. */
  predicate KeepsCapitals(upper: string -> string) {
    upper("") == "" && upper("P") == "P" && upper("W") == "W"
  }

  function StockRow(quantity: nat): ImportRow {
    ImportRow(2, Stock, "", "", "", "", "P", "W", Some(quantity), None)
  }

  lemma RowReads(upper: string -> string, digits: string)
    requires KeepsCapitals(upper) && IsQuantity(digits) && DecimalValue(digits) <= MAX_SAFE_INTEGER
    ensures ReadingOf(upper, RowValues(digits), 2) == Success(StockRow(DecimalValue(digits)))
  {
    CleanIsTight("stock");
    CleanIsTight("");
    CleanIsTight("P");
    CleanIsTight("W");
    CleanIsTight(digits);
  }

  lemma TableParses(upper: string -> string, values: seq<string>, row: ImportRow)
    requires ReadingOf(upper, values, 2) == Success(row) && RowErrorOf(row, {}) == None
    ensures ParseTable(upper, [HEADER] + [values], true) == Success(Parsed([row], []))
  {
    HeaderIsClean();
    var readings := Readings(upper, [HEADER] + [values]);
    assert ([HEADER] + [values])[1] == values && readings == [Success(row)];
    assert FirstPass(readings, 0) == Pass([], [], {});
    assert FirstPass(readings, 1) == Pass([row], [], {KeyOf(row)});
  }

  lemma ContentParses(upper: string -> string, content: string, values: seq<string>, row: ImportRow)
    requires Csv.Read(Csv.StripBom(content)) == Success([HEADER] + [values])
    requires ReadingOf(upper, values, 2) == Success(row) && RowErrorOf(row, {}) == None
    ensures Parse(upper, content, true) == Success(Parsed([row], []))
  {
    TableParses(upper, values, row);
  }

  lemma RowIsFine(quantity: nat)
    ensures RowErrorOf(StockRow(quantity), {}) == None
  {
  }

  lemma FileParses(upper: string -> string, digits: string)
    requires KeepsCapitals(upper) && IsQuantity(digits) && DecimalValue(digits) <= MAX_SAFE_INTEGER
    ensures Parse(upper, StockFile(digits), true) == Success(Parsed([StockRow(DecimalValue(digits))], []))
  {
    FileReads(digits);
    RowReads(upper, digits);
    RowIsFine(DecimalValue(digits));
    ContentParses(upper, StockFile(digits), RowValues(digits), StockRow(DecimalValue(digits)));
  }

  lemma DigitIsANumber(digit: string, value: nat)
    requires |digit| == 1 && '0' <= digit[0] <= '9' && value == digit[0] as int - '0' as int
    ensures IsQuantity(digit) && DecimalValue(digit) == value
  {
    assert digit[..0] == "";
  }

  lemma TenTimes(digits: string, value: nat)
    requires IsQuantity(digits) && |digits| < 10 && DecimalValue(digits) == value
    ensures IsQuantity(digits + "0") && DecimalValue(digits + "0") == 10 * value
  {
    assert (digits + "0")[..|digits|] == digits;
  }

  lemma TooManyIsANumber()
    ensures IsQuantity("3000000000") && DecimalValue("3000000000") == 3000000000
  {
    DigitIsANumber("3", 3);
    TenTimes("3", 3);
    TenTimes("3" + "0", 30);
    TenTimes("3" + "0" + "0", 300);
    TenTimes("3" + "0" + "0" + "0", 3000);
    TenTimes("3" + "0" + "0" + "0" + "0", 30000);
    TenTimes("3" + "0" + "0" + "0" + "0" + "0", 300000);
    TenTimes("3" + "0" + "0" + "0" + "0" + "0" + "0", 3000000);
    TenTimes("3" + "0" + "0" + "0" + "0" + "0" + "0" + "0", 30000000);
    TenTimes("3" + "0" + "0" + "0" + "0" + "0" + "0" + "0" + "0", 300000000);
    assert "3" + "0" + "0" + "0" + "0" + "0" + "0" + "0" + "0" + "0" == "3000000000";
  }

  lemma FilesDiffer(upper: string -> string)
    requires KeepsCapitals(upper)
    ensures StockFile("0") != StockFile("5")
  {
    DigitIsANumber("0", 0);
    DigitIsANumber("5", 5);
    FileParses(upper, "0");
    FileParses(upper, "5");
  }
}
