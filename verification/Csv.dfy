/** The CSV reader of the initial import: a character state machine, proved equal to a grammar read by recursive
    descent.

    Texts are sequences of Unicode scalar values; every character the reader treats specially is ASCII. */
module Csv {
  import opened Wrappers

  const QUOTE: char := '"'

  const LIMIT := 1024 * 1024

  const BOM: char := 0xFEFF as char

  datatype CsvError = TooLarge | MisplacedQuote | UnclosedQuote

  // ---------- text ----------

  /** The import drops one byte order mark in front. */
  function StripBom(text: string): string {
    if text != "" && text[0] == BOM then text[1..] else text
  }

  function Join(parts: seq<string>, separator: string): string {
    if parts == [] then ""
    else if |parts| == 1 then parts[0]
    else parts[0] + separator + Join(parts[1..], separator)
  }

  // ---------- size ----------

  function CharBytes(c: char): (n: nat)
    ensures 1 <= n <= 4
  {
    if c as int < 0x80 then 1 else if c as int < 0x800 then 2 else if c as int < 0x10000 then 3 else 4
  }

  /** Length of the UTF-8 encoding. */
  function Utf8Length(text: string): nat {
    if text == "" then 0 else Utf8Length(text[..|text| - 1]) + CharBytes(text[|text| - 1])
  }

  // ---------- blank rows ----------

  /** What JavaScript's trim removes: white space and line terminators of ECMA-262. */
  predicate IsSpace(c: char) {
    || c in {'\t', '\n', '\r', ' '}
    || c as int in {0x0B, 0x0C, 0xA0, 0x1680, 0x2028, 0x2029, 0x202F, 0x205F, 0x3000, 0xFEFF}
    || 0x2000 <= c as int <= 0x200A
  }

  predicate IsBlank(row: seq<string>) {
    forall i | 0 <= i < |row| :: forall j | 0 <= j < |row[i]| :: IsSpace(row[i][j])
  }

  function NonBlank(rows: seq<seq<string>>): seq<seq<string>> {
    if rows == [] then []
    else NonBlank(rows[..|rows| - 1]) + (if IsBlank(rows[|rows| - 1]) then [] else [rows[|rows| - 1]])
  }

  // ---------- the grammar ----------

  /** Inside quotes from position `i`: the text up to the closing quote, a doubled quote standing for one, and the
      position behind it. */
  function ReadQuoted(text: string, i: nat): (read: Option<(string, nat)>)
    requires i <= |text|
    ensures read.Some? ==> i < read.value.1 <= |text|
    decreases |text| - i
  {
    if i == |text| then None
    else if text[i] == QUOTE && i + 1 < |text| && text[i + 1] == QUOTE then
      match ReadQuoted(text, i + 2)
      case None => None
      case Some((rest, j)) => Some(([QUOTE] + rest, j))
    else if text[i] == QUOTE then Some(("", i + 1))
    else
      match ReadQuoted(text, i + 1)
      case None => None
      case Some((rest, j)) => Some(([text[i]] + rest, j))
  }

  /** A cell continued at position `i` after `field`: carriage returns are dropped, and a quoted part may stand only at
      the front. The cell ends before a comma, a line feed or the end. */
  function ReadCell(text: string, i: nat, field: string): (read: Result<(string, nat), CsvError>)
    requires i <= |text|
    ensures read.Success? ==> i <= read.value.1 <= |text|
    ensures read.Success? && read.value.1 < |text| ==> text[read.value.1] == ',' || text[read.value.1] == '\n'
    decreases |text| - i
  {
    if i == |text| || text[i] == ',' || text[i] == '\n' then Success((field, i))
    else if text[i] == QUOTE then
      if field != "" then Failure(MisplacedQuote)
      else
        match ReadQuoted(text, i + 1)
        case None => Failure(UnclosedQuote)
        case Some((quoted, j)) => ReadCell(text, j, quoted)
    else if text[i] == '\r' then ReadCell(text, i + 1, field)
    else ReadCell(text, i + 1, field + [text[i]])
  }

  /** The cells of a row from position `i`, and the position of the line feed or end behind it. */
  function ReadRow(text: string, i: nat): (read: Result<(seq<string>, nat), CsvError>)
    requires i <= |text|
    ensures read.Success? ==> i <= read.value.1 <= |text|
    ensures read.Success? && read.value.1 < |text| ==> text[read.value.1] == '\n'
    decreases |text| - i, 1
  {
    match ReadCell(text, i, "")
    case Failure(e) => Failure(e)
    case Success((cell, j)) => ReadOn(text, j, [cell])
  }

  /** The row goes on behind a comma at position `j`, and ends otherwise. */
  function ReadOn(text: string, j: nat, row: seq<string>): (read: Result<(seq<string>, nat), CsvError>)
    requires j <= |text|
    requires j < |text| ==> text[j] == ',' || text[j] == '\n'
    ensures read.Success? ==> j <= read.value.1 <= |text|
    ensures read.Success? && read.value.1 < |text| ==> text[read.value.1] == '\n'
    decreases |text| - j, 0
  {
    if j < |text| && text[j] == ',' then
      match ReadRow(text, j + 1)
      case Failure(e) => Failure(e)
      case Success((rest, k)) => Success((row + rest, k))
    else Success((row, j))
  }

  function ReadRows(text: string, i: nat): Result<seq<seq<string>>, CsvError>
    requires i <= |text|
    decreases |text| - i, 1
  {
    match ReadRow(text, i)
    case Failure(e) => Failure(e)
    case Success((row, j)) => ReadFurther(text, j, [row])
  }

  function ReadFurther(text: string, j: nat, rows: seq<seq<string>>): Result<seq<seq<string>>, CsvError>
    requires j <= |text|
    requires j < |text| ==> text[j] == '\n'
    decreases |text| - j, 0
  {
    if j < |text| then
      match ReadRows(text, j + 1)
      case Failure(e) => Failure(e)
      case Success(rest) => Success(rows + rest)
    else Success(rows)
  }

  /** What the reader makes of a text. */
  function Read(text: string): Result<seq<seq<string>>, CsvError> {
    if Utf8Length(text) > LIMIT then Failure(TooLarge)
    else
      match ReadRows(text, 0)
      case Failure(e) => Failure(e)
      case Success(rows) => Success(NonBlank(rows))
  }

  // ---------- the state machine ----------

  /** A cell continued after `field`, inside quotes or not. */
  function CellFrom(text: string, i: nat, field: string, quoted: bool): (read: Result<(string, nat), CsvError>)
    requires i <= |text|
    ensures read.Success? ==> i <= read.value.1 <= |text|
    ensures read.Success? && read.value.1 < |text| ==> text[read.value.1] == ',' || text[read.value.1] == '\n'
  {
    if quoted then
      match ReadQuoted(text, i)
      case None => Failure(UnclosedQuote)
      case Some((rest, j)) => ReadCell(text, j, field + rest)
    else ReadCell(text, i, field)
  }

  /** What the grammar makes of the rest of the text when the machine has come to position `i`. */
  function Resume(text: string, i: nat, rows: seq<seq<string>>, row: seq<string>, field: string, quoted: bool):
    Result<seq<seq<string>>, CsvError>
    requires i <= |text|
  {
    match CellFrom(text, i, field, quoted)
    case Failure(e) => Failure(e)
    case Success((cell, j)) =>
      match ReadOn(text, j, row + [cell])
      case Failure(e) => Failure(e)
      case Success((r, k)) => ReadFurther(text, k, rows + [r])
  }

  lemma OnPrefix(text: string, j: nat, before: seq<string>, row: seq<string>)
    requires j <= |text| && (j < |text| ==> text[j] == ',' || text[j] == '\n')
    ensures ReadOn(text, j, before + row) ==
              match ReadOn(text, j, row)
              case Failure(e) => Failure(e)
              case Success((rest, k)) => Success((before + rest, k))
  {
    if j < |text| && text[j] == ',' && ReadRow(text, j + 1).Success? {
      var rest := ReadRow(text, j + 1).value.0;
      assert (before + row) + rest == before + (row + rest);
    }
  }

  lemma FurtherPrefix(text: string, j: nat, before: seq<seq<string>>, rows: seq<seq<string>>)
    requires j <= |text| && (j < |text| ==> text[j] == '\n')
    ensures ReadFurther(text, j, before + rows) ==
              match ReadFurther(text, j, rows)
              case Failure(e) => Failure(e)
              case Success(rest) => Success(before + rest)
  {
    if j < |text| && ReadRows(text, j + 1).Success? {
      var rest := ReadRows(text, j + 1).value;
      assert (before + rows) + rest == before + (rows + rest);
    }
  }

  lemma ResumeAfterComma(text: string, i: nat, rows: seq<seq<string>>, row: seq<string>, field: string)
    requires i < |text| && text[i] == ','
    ensures Resume(text, i, rows, row, field, false) == Resume(text, i + 1, rows, row + [field], "", false)
  {
    var read := ReadCell(text, i + 1, "");
    if read.Success? {
      OnPrefix(text, read.value.1, row + [field], [read.value.0]);
    }
    assert ReadOn(text, i, row + [field]) ==
           match ReadRow(text, i + 1)
           case Failure(e) => Failure(e)
           case Success((rest, k)) => Success((row + [field] + rest, k));
  }

  lemma ResumeAfterNewline(text: string, i: nat, rows: seq<seq<string>>, row: seq<string>, field: string)
    requires i < |text| && text[i] == '\n'
    ensures Resume(text, i, rows, row, field, false) == Resume(text, i + 1, rows + [row + [field]], [], "", false)
  {
    var before := rows + [row + [field]];
    var read := ReadCell(text, i + 1, "");
    if read.Success? {
      assert [] + [read.value.0] == [read.value.0];
      var on := ReadOn(text, read.value.1, [read.value.0]);
      if on.Success? {
        FurtherPrefix(text, on.value.1, before, [on.value.0]);
      }
    }
    assert ReadFurther(text, i, before) ==
           match ReadRows(text, i + 1)
           case Failure(e) => Failure(e)
           case Success(rest) => Success(before + rest);
  }

  /** The rows' last one is kept only if it has a character or is the only one: what is dropped is blank anyway. */
  lemma DroppedIsBlank(rows: seq<seq<string>>, row: seq<string>)
    requires forall i | 0 <= i < |row| :: row[i] == ""
    ensures NonBlank(rows + [row]) == NonBlank(rows)
  {
    assert (rows + [row])[..|rows|] == rows;
  }

  /** The hand-written scanner reads exactly what the grammar reads, and rejects exactly what it rejects. */
  method ParseCsv(content: string) returns (result: Result<seq<seq<string>>, CsvError>)
    ensures result == Read(content)
  {
    if Utf8Length(content) > LIMIT { return Failure(TooLarge); }
    var rows: seq<seq<string>>, row: seq<string>, field, quoted := [], [], "", false;
    var index := 0;
    assert forall cell: string :: [] + [cell] == [cell];
    assert forall r: seq<string> :: [] + [r] == [r];
    while index < |content|
      invariant 0 <= index <= |content|
      invariant Resume(content, index, rows, row, field, quoted) == ReadRows(content, 0)
    {
      var character := content[index];
      if quoted {
        if character == QUOTE && index + 1 < |content| && content[index + 1] == QUOTE {
          ResumeInQuotes(content, index, rows, row, field);
          field := field + [QUOTE];
          index := index + 1;
        } else if character == QUOTE {
          ResumeInQuotes(content, index, rows, row, field);
          quoted := false;
        } else {
          ResumeInQuotes(content, index, rows, row, field);
          field := field + [character];
        }
      } else if character == QUOTE {
        if |field| != 0 { return Failure(MisplacedQuote); }
        ResumeAtQuote(content, index, rows, row);
        quoted := true;
      } else if character == ',' {
        ResumeAfterComma(content, index, rows, row, field);
        row := row + [field];
        field := "";
      } else if character == '\n' {
        ResumeAfterNewline(content, index, rows, row, field);
        row := row + [field];
        rows := rows + [row];
        row, field := [], "";
      } else if character != '\r' {
        field := field + [character];
      }
      index := index + 1;
    }
    if quoted { return Failure(UnclosedQuote); }
    row := row + [field];
    if (exists i | 0 <= i < |row| :: |row[i]| != 0) || |rows| == 0 {
      rows := rows + [row];
    } else {
      DroppedIsBlank(rows, row);
    }
    return Success(NonBlank(rows));
  }

  lemma ResumeInQuotes(text: string, i: nat, rows: seq<seq<string>>, row: seq<string>, field: string)
    requires i < |text|
    ensures var doubled := text[i] == QUOTE && i + 1 < |text| && text[i + 1] == QUOTE;
            Resume(text, i, rows, row, field, true) ==
              if doubled then Resume(text, i + 2, rows, row, field + [QUOTE], true)
              else if text[i] == QUOTE then Resume(text, i + 1, rows, row, field, false)
              else Resume(text, i + 1, rows, row, field + [text[i]], true)
  {
    if text[i] == QUOTE && i + 1 < |text| && text[i + 1] == QUOTE {
      if ReadQuoted(text, i + 2).Some? {
        var rest := ReadQuoted(text, i + 2).value.0;
        assert field + ([QUOTE] + rest) == (field + [QUOTE]) + rest;
      }
    } else if text[i] == QUOTE {
      assert field + "" == field;
    } else if ReadQuoted(text, i + 1).Some? {
      var rest := ReadQuoted(text, i + 1).value.0;
      assert field + ([text[i]] + rest) == (field + [text[i]]) + rest;
    }
  }

  lemma ResumeAtQuote(text: string, i: nat, rows: seq<seq<string>>, row: seq<string>)
    requires i < |text| && text[i] == QUOTE
    ensures Resume(text, i, rows, row, "", false) == Resume(text, i + 1, rows, row, "", true)
  {
    if ReadQuoted(text, i + 1).Some? {
      assert "" + ReadQuoted(text, i + 1).value.0 == ReadQuoted(text, i + 1).value.0;
    }
  }
}
