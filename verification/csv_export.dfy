/** The CSV text of a budget export, and a reader for it: the grammar of section 2 of RFC 4180
    with LF as the line break. */
module CsvExport {
  import opened Domain

  type Row = seq<string>

  // ---------- Writing ----------

  predicate NeedsQuotes(cell: string) {
    exists i :: 0 <= i < |cell| && (cell[i] == '"' || cell[i] == ',' || cell[i] == '\n')
  }

  /** Every double quote of the text doubled. */
  function DoubleQuotes(text: string): string {
    if text == "" then ""
    else (if text[0] == '"' then "\"\"" else [text[0]]) + DoubleQuotes(text[1..])
  }

  function EscapeCell(cell: string): string {
    if NeedsQuotes(cell) then "\"" + DoubleQuotes(cell) + "\"" else cell
  }

  function JoinCells(row: Row): string {
    if row == [] then ""
    else if |row| == 1 then EscapeCell(row[0])
    else EscapeCell(row[0]) + "," + JoinCells(row[1..])
  }

  function BuildCsv(table: seq<Row>): string {
    if table == [] then ""
    else if |table| == 1 then JoinCells(table[0])
    else JoinCells(table[0]) + "\n" + BuildCsv(table[1..])
  }

  const HEADERS: Row := [
    "Reference", "Department", "Department Code", "Year", "Limit (NGN)", "Committed (NGN)", "Reimbursed (NGN)",
    "Remaining (NGN)", "Utilization %", "Over Budget", "Active", "Created At", "Updated At"]

  /** `rows` holds the already formatted cells of one budget each. */
  function BuildBudgetListExportCsv(rows: seq<Row>): string {
    BuildCsv([HEADERS] + rows)
  }

  /** A cell is quoted only where it has to be. */
  lemma PlainCellsStayPlain(cell: string)
    ensures EscapeCell(cell) == cell <==> '"' !in cell && ',' !in cell && '\n' !in cell
  {
    if NeedsQuotes(cell) { DoublingLengthens(cell); }
  }

  lemma {:induction false} DoublingLengthens(text: string)
    ensures |text| <= |DoubleQuotes(text)|
  {
    if text != "" { DoublingLengthens(text[1..]); }
  }

  // ---------- Reading ----------

  datatype Read<+T> = Taken(value: T, rest: string) | Malformed

  function ReadQuoted(t: string): (r: Read<string>)
    ensures r.Taken? ==> |r.rest| < |t|
  {
    if t == "" then Malformed
    else if t[0] != '"' then Prepend(t[0], ReadQuoted(t[1..]))
    else if 2 <= |t| && t[1] == '"' then Prepend('"', ReadQuoted(t[2..]))
    else Taken("", t[1..])
  }

  function Prepend(c: char, r: Read<string>): Read<string> {
    match r
    case Taken(text, rest) => Taken([c] + text, rest)
    case Malformed => Malformed
  }

  function ReadPlain(t: string): (r: Read<string>)
    ensures r.Taken? ==> |r.rest| <= |t|
  {
    if t == "" || t[0] == ',' || t[0] == '\n' then Taken("", t)
    else if t[0] == '"' then Malformed
    else Prepend(t[0], ReadPlain(t[1..]))
  }

  function ReadField(t: string): (r: Read<string>)
    ensures r.Taken? ==> |r.rest| <= |t|
  {
    if t != "" && t[0] == '"' then ReadQuoted(t[1..]) else ReadPlain(t)
  }

  function ReadRecord(t: string): (r: Read<Row>)
    ensures r.Taken? ==> |r.rest| <= |t| && (r.rest == "" || r.rest[0] == '\n')
    decreases |t|
  {
    match ReadField(t)
    case Malformed => Malformed
    case Taken(cell, rest) =>
      if rest == "" || rest[0] == '\n' then Taken([cell], rest)
      else if rest[0] != ',' then Malformed
      else
        match ReadRecord(rest[1..])
        case Malformed => Malformed
        case Taken(cells, end) => Taken([cell] + cells, end)
  }

  /** The line break after the last record is optional. */
  function ReadTable(t: string): Option<seq<Row>>
    decreases |t|
  {
    if t == "" then Some([])
    else
      match ReadRecord(t)
      case Malformed => None
      case Taken(row, rest) =>
        if rest == "" then Some([row])
        else
          match ReadTable(rest[1..])
          case None => None
          case Some(rows) => Some([row] + rows)
  }

  // ---------- Reading back what was written ----------

  lemma ReadQuotedChar(c: char, t: string)
    requires c != '"'
    ensures ReadQuoted([c] + t) == Prepend(c, ReadQuoted(t))
  {
    assert ([c] + t)[1..] == t;
  }

  lemma ReadQuotedPair(t: string)
    ensures ReadQuoted("\"\"" + t) == Prepend('"', ReadQuoted(t))
  {
    assert ("\"\"" + t)[2..] == t;
  }

  lemma ReadQuotedEnd(rest: string)
    requires rest == "" || rest[0] != '"'
    ensures ReadQuoted("\"" + rest) == Taken("", rest)
  {
    assert ("\"" + rest)[1..] == rest;
  }

  /** One more character in front of quoted text that reads back. */
  lemma QuotedStep(t: string, c: char, tail: string, cell: string, rest: string)
    requires ReadQuoted(tail) == Taken(cell, rest)
    requires t == (if c == '"' then "\"\"" else [c]) + tail
    ensures ReadQuoted(t) == Taken([c] + cell, rest)
  {
    if c == '"' { ReadQuotedPair(tail); } else { ReadQuotedChar(c, tail); }
  }

  lemma {:induction false} QuotedReadsBack(cell: string, rest: string)
    requires rest == "" || rest[0] != '"'
    ensures ReadQuoted(DoubleQuotes(cell) + ("\"" + rest)) == Taken(cell, rest)
  {
    var end := "\"" + rest;
    if cell == "" {
      assert DoubleQuotes(cell) + end == end;
      ReadQuotedEnd(rest);
    } else {
      QuotedReadsBack(cell[1..], rest);
      var first, tail := if cell[0] == '"' then "\"\"" else [cell[0]], DoubleQuotes(cell[1..]);
      assert first + (tail + end) == first + tail + end;
      QuotedStep(DoubleQuotes(cell) + end, cell[0], tail + end, cell[1..], rest);
      assert [cell[0]] + cell[1..] == cell;
    }
  }

  lemma {:induction false} PlainReadsBack(cell: string, rest: string)
    requires !NeedsQuotes(cell) && (rest == "" || rest[0] == ',' || rest[0] == '\n')
    ensures ReadPlain(cell + rest) == Taken(cell, rest)
  {
    if cell == "" {
      assert cell + rest == rest;
    } else {
      assert forall i :: 0 <= i < |cell| - 1 ==> cell[1..][i] == cell[i + 1];
      PlainReadsBack(cell[1..], rest);
      assert (cell + rest)[1..] == cell[1..] + rest;
      assert (cell + rest)[0] == cell[0];
      assert cell == [cell[0]] + cell[1..];
    }
  }

  lemma FieldReadsBack(cell: string, rest: string)
    requires rest == "" || rest[0] == ',' || rest[0] == '\n'
    ensures ReadField(EscapeCell(cell) + rest) == Taken(cell, rest)
  {
    if NeedsQuotes(cell) {
      QuotedReadsBack(cell, rest);
      assert EscapeCell(cell) + rest == "\"" + (DoubleQuotes(cell) + ("\"" + rest));
      ReadQuotedField(DoubleQuotes(cell) + ("\"" + rest));
    } else {
      PlainReadsBack(cell, rest);
      ReadPlainField(cell, rest);
    }
  }

  lemma ReadQuotedField(t: string)
    ensures ReadField("\"" + t) == ReadQuoted(t)
  {
    assert ("\"" + t)[1..] == t;
  }

  lemma ReadPlainField(cell: string, rest: string)
    requires !NeedsQuotes(cell) && (rest == "" || rest[0] == ',' || rest[0] == '\n')
    ensures ReadField(cell + rest) == ReadPlain(cell + rest)
  {
    assert cell + rest != "" ==> (cell + rest)[0] == if cell != "" then cell[0] else rest[0];
  }

  lemma ReadRecordCons(t: string, cell: string, tail: string)
    requires ReadField(t) == Taken(cell, "," + tail)
    requires ReadRecord(tail).Taken?
    ensures ReadRecord(t) == Taken([cell] + ReadRecord(tail).value, ReadRecord(tail).rest)
  {
    assert ("," + tail)[1..] == tail;
  }

  lemma {:induction false} RecordReadsBack(row: Row, rest: string)
    requires row != [] && (rest == "" || rest[0] == '\n')
    ensures ReadRecord(JoinCells(row) + rest) == Taken(row, rest)
  {
    if |row| == 1 {
      FieldReadsBack(row[0], rest);
      assert row == [row[0]];
    } else {
      RecordReadsBack(row[1..], rest);
      CellThenRecord(row[0], row[1..], rest);
      assert row == [row[0]] + row[1..];
    }
  }

  lemma JoinCons(cell: string, cells: Row, rest: string)
    requires cells != []
    ensures JoinCells([cell] + cells) + rest == EscapeCell(cell) + ("," + (JoinCells(cells) + rest))
  {
    assert ([cell] + cells)[1..] == cells;
    Regroup(EscapeCell(cell), ",", JoinCells(cells), rest);
  }

  lemma Regroup(a: string, b: string, c: string, d: string)
    ensures ((a + b) + c) + d == a + (b + (c + d))
  {
  }

  lemma CellThenRecord(cell: string, cells: Row, rest: string)
    requires cells != [] && ReadRecord(JoinCells(cells) + rest) == Taken(cells, rest)
    ensures ReadRecord(JoinCells([cell] + cells) + rest) == Taken([cell] + cells, rest)
  {
    var tail := JoinCells(cells) + rest;
    JoinCons(cell, cells, rest);
    FieldReadsBack(cell, "," + tail);
    ReadRecordCons(EscapeCell(cell) + ("," + tail), cell, tail);
  }

  lemma RowTextIsEmpty(row: Row)
    requires row != []
    ensures JoinCells(row) == "" <==> row == [""]
  {
  }

  lemma ReadTableCons(t: string, row: Row, tail: string)
    requires t != "" && ReadRecord(t) == Taken(row, "\n" + tail) && ReadTable(tail).Some?
    ensures ReadTable(t) == Some([row] + ReadTable(tail).value)
  {
    assert ("\n" + tail)[1..] == tail;
  }

  lemma OneRowReadsBack(row: Row)
    requires row != []
    ensures ReadTable(JoinCells(row)) == Some(if row == [""] then [] else [row])
  {
    RowTextIsEmpty(row);
    RecordReadsBack(row, "");
    assert JoinCells(row) + "" == JoinCells(row);
  }

  /** The rows the reader can see: a last row holding one empty cell leaves no trace. */
  function Visible(table: seq<Row>): seq<Row>
    requires table != []
  {
    if table[|table| - 1] == [""] then table[..|table| - 1] else table
  }

  lemma {:induction false} ReadsBack(table: seq<Row>)
    requires table != [] && forall i :: 0 <= i < |table| ==> table[i] != []
    ensures ReadTable(BuildCsv(table)) == Some(Visible(table))
  {
    if |table| == 1 {
      OneRowReadsBack(table[0]);
      assert table == [table[0]];
    } else {
      ReadsBack(table[1..]);
      ReadsBackCons(table[0], table[1..]);
      assert table == [table[0]] + table[1..];
    }
  }

  lemma BuildCons(row: Row, rest: seq<Row>)
    requires rest != []
    ensures BuildCsv([row] + rest) == JoinCells(row) + ("\n" + BuildCsv(rest))
  {
    assert ([row] + rest)[1..] == rest;
  }

  lemma VisibleCons(row: Row, rest: seq<Row>)
    requires rest != []
    ensures Visible([row] + rest) == [row] + Visible(rest)
  {
  }

  lemma ReadsBackCons(row: Row, rest: seq<Row>)
    requires row != [] && rest != [] && ReadTable(BuildCsv(rest)) == Some(Visible(rest))
    ensures ReadTable(BuildCsv([row] + rest)) == Some(Visible([row] + rest))
  {
    var tail := BuildCsv(rest);
    BuildCons(row, rest);
    VisibleCons(row, rest);
    RecordReadsBack(row, "\n" + tail);
    ReadTableCons(JoinCells(row) + ("\n" + tail), row, tail);
  }

  /** The text determines the table exactly when the last row is not a single empty cell, so
      always when rows have more than one column. */
  lemma {:induction false} RoundTrip(table: seq<Row>)
    requires table != [] && forall i :: 0 <= i < |table| ==> table[i] != []
    ensures ReadTable(BuildCsv(table)) == Some(table) <==> table[|table| - 1] != [""]
  {
    ReadsBack(table);
  }

  lemma {:induction false} ExportRoundTrip(rows: seq<Row>)
    requires forall i :: 0 <= i < |rows| ==> |rows[i]| == |HEADERS|
    ensures ReadTable(BuildBudgetListExportCsv(rows)) == Some([HEADERS] + rows)
  {
    RoundTrip([HEADERS] + rows);
  }
}
