/**
 The analytics export: rows to CSV with a formula guard, read back by a reader that follows
 section 2 of RFC 4180. The reader takes any character but comma, quote, CR and LF as text, since
 labels are free text, and lets the last record end with a line break or without one.
 */
module Csv {
  import opened Common

  type Cells = seq<string>

  // ---------------------------------------------------------------- the printer

  predicate StartsFormula(raw: string) { raw != "" && raw[0] in "=+-@\t\r" }

  predicate NeedsQuotes(text: string) { '"' in text || ',' in text || '\r' in text || '\n' in text }

  function Doubled(text: string): string {
    if text == "" then ""
    else
      Doubled(text[..|text| - 1]) + (if text[|text| - 1] == '"' then "\"\"" else [text[|text| - 1]])
  }

  /** A numeric column is never guarded, except in the header row. */
  function Guarded(raw: string, column: nat, isHeader: bool, numeric: set<nat>): string {
    if !(!isHeader && column in numeric) && StartsFormula(raw) then "\t" + raw else raw
  }

  function Quoted(text: string): string { if NeedsQuotes(text) then "\"" + Doubled(text) + "\"" else text }

  function Escape(raw: string, column: nat, isHeader: bool, numeric: set<nat>): string {
    Quoted(Guarded(raw, column, isHeader, numeric))
  }

  function Join(parts: seq<string>, separator: string): string {
    if parts == [] then ""
    else if |parts| == 1 then parts[0]
    else Join(parts[..|parts| - 1], separator) + separator + parts[|parts| - 1]
  }

  function Escaped(row: Cells, isHeader: bool, numeric: set<nat>): Cells {
    seq(|row|, j requires 0 <= j < |row| => Escape(row[j], j, isHeader, numeric))
  }

  function Line(row: Cells, isHeader: bool, numeric: set<nat>): string { Join(Escaped(row, isHeader, numeric), ",") }

  function Lines(table: seq<Cells>, numeric: set<nat>): seq<string> {
    seq(|table|, i requires 0 <= i < |table| => Line(table[i], i == 0, numeric))
  }

  function ToCsv(header: Cells, rows: seq<Cells>, numeric: set<nat>): string {
    Join(Lines([header] + rows, numeric), "\r\n")
  }

  // ---------------------------------------------------------------- the reader

  datatype Mode = RecordStart | FieldStart | Plain | InQuotes | QuoteSeen | AfterCr | Bad

  datatype Reader = Reader(records: seq<Cells>, row: Cells, field: string, mode: Mode) {
    function EndField(): Reader { Reader(records, row + [field], "", FieldStart) }

    function EndRecord(): Reader { Reader(records + [row + [field]], [], "", RecordStart) }

    function Append(c: char, next: Mode): Reader { Reader(records, row, field + [c], next) }

    function Feed(c: char): Reader {
      match mode
      case RecordStart => FeedStart(c)
      case FieldStart => FeedStart(c)
      case Plain =>
        if c == ',' then EndField()
        else if c == '\r' then this.(mode := AfterCr)
        else if c == '"' || c == '\n' then this.(mode := Bad)
        else Append(c, Plain)
      case InQuotes => if c == '"' then this.(mode := QuoteSeen) else Append(c, InQuotes)
      case QuoteSeen =>
        if c == '"' then Append(c, InQuotes)
        else if c == ',' then EndField()
        else if c == '\r' then this.(mode := AfterCr)
        else this.(mode := Bad)
      case AfterCr => if c == '\n' then EndRecord() else this.(mode := Bad)
      case Bad => this
    }

    function FeedStart(c: char): Reader {
      if c == '"' then this.(mode := InQuotes)
      else if c == ',' then EndField()
      else if c == '\r' then this.(mode := AfterCr)
      else if c == '\n' then this.(mode := Bad)
      else Append(c, Plain)
    }

    /** The last record may end with a line break; a file always has one record. */
    function Finish(): Option<seq<Cells>> {
      match mode
      case RecordStart => Some(if records == [] then [[""]] else records)
      case FieldStart => Some(EndRecord().records)
      case Plain => Some(EndRecord().records)
      case QuoteSeen => Some(EndRecord().records)
      case _ => None
    }
  }

  const START := Reader([], [], "", RecordStart)

  function FeedAll(r: Reader, text: string): Reader {
    if text == "" then r else FeedAll(r, text[..|text| - 1]).Feed(text[|text| - 1])
  }

  function Read(text: string): Option<seq<Cells>> { FeedAll(START, text).Finish() }

  lemma {:induction false} FeedInTwo(r: Reader, a: string, b: string)
    ensures FeedAll(r, a + b) == FeedAll(FeedAll(r, a), b)
    decreases |b|
  {
    if b == "" {
      assert a + b == a;
    } else {
      var init := b[..|b| - 1];
      assert (a + b)[..|a + b| - 1] == a + init;
      FeedInTwo(r, a, init);
    }
  }

  lemma FeedOne(r: Reader, c: char)
    ensures FeedAll(r, [c]) == r.Feed(c)
  {
    assert [c][..0] == [];
    assert FeedAll(r, []) == r;
  }

  // ---------------------------------------------------------------- one cell

  predicate Fresh(r: Reader) { r.field == "" && (r.mode.RecordStart? || r.mode.FieldStart?) }

  predicate AtEnd(r: Reader) { r.mode.RecordStart? || r.mode.FieldStart? || r.mode.Plain? || r.mode.QuoteSeen? }

  predicate IsText(c: char) { c != '"' && c != ',' && c != '\r' && c != '\n' }

  lemma FeedText(r: Reader, c: char)
    requires IsText(c) && (r.mode.Plain? || r.mode.RecordStart? || r.mode.FieldStart?)
    ensures r.Feed(c) == Reader(r.records, r.row, r.field + [c], Plain)
  {
  }

  lemma {:induction false} ReadPlain(r: Reader, text: string)
    requires Fresh(r) && forall i :: 0 <= i < |text| ==> IsText(text[i])
    ensures FeedAll(r, text) == if text == "" then r else Reader(r.records, r.row, text, Plain)
  {
    if text != "" {
      var init, last := text[..|text| - 1], text[|text| - 1];
      assert FeedAll(r, text) == FeedAll(r, init).Feed(last);
      hide FeedAll, IsText, Reader.Feed;
      assert init + [last] == text;
      ReadPlain(r, init);
      FeedText(FeedAll(r, init), last);
    }
  }

  lemma FeedTwoQuotes(r: Reader)
    requires r.mode.InQuotes?
    ensures FeedAll(r, "\"\"") == r.Append('"', InQuotes)
  {
    assert "\"\"" == ['"'] + ['"'];
    FeedInTwo(r, ['"'], ['"']);
    FeedOne(r, '"');
    FeedOne(r.Feed('"'), '"');
  }

  lemma FeedQuoted(r: Reader, c: char)
    requires r.mode.InQuotes? && c != '"'
    ensures FeedAll(r, [c]) == r.Append(c, InQuotes)
  {
    FeedOne(r, c);
  }

  lemma DoubledStep(text: string)
    requires text != ""
    ensures var init, last := text[..|text| - 1], text[|text| - 1];
      Doubled(text) == Doubled(init) + if last == '"' then "\"\"" else [last]
  {
  }

  lemma DoubledNothing(r: Reader)
    requires r.mode.InQuotes? && r.field == ""
    ensures FeedAll(r, Doubled("")) == r == Reader(r.records, r.row, "", InQuotes)
  {
  }

  lemma {:induction false} ReadDoubled(r: Reader, text: string)
    requires r.mode.InQuotes? && r.field == ""
    ensures FeedAll(r, Doubled(text)) == Reader(r.records, r.row, text, InQuotes)
  {
    hide FeedAll, Doubled;
    if text == "" {
      DoubledNothing(r);
    } else {
      var init, last := text[..|text| - 1], text[|text| - 1];
      assert init + [last] == text;
      DoubledStep(text);
      ReadDoubled(r, init);
      var before := Reader(r.records, r.row, init, InQuotes);
      if last == '"' {
        FeedInTwo(r, Doubled(init), "\"\"");
        FeedTwoQuotes(before);
      } else {
        FeedInTwo(r, Doubled(init), [last]);
        FeedQuoted(before, last);
      }
    }
  }

  /** A printed cell is read back as it was before quoting. */
  lemma {:induction false} ReadCell(r: Reader, text: string)
    requires Fresh(r)
    ensures var s := FeedAll(r, Quoted(text));
      && s.records == r.records && s.row == r.row && s.field == text && AtEnd(s)
      && (s.mode.RecordStart? <==> r.mode.RecordStart? && text == "")
  {
    if NeedsQuotes(text) {
      var inside := r.Feed('"');
      FeedInTwo(r, ['"'] + Doubled(text), ['"']);
      FeedInTwo(r, ['"'], Doubled(text));
      FeedOne(r, '"');
      ReadDoubled(inside, text);
      FeedOne(Reader(r.records, r.row, text, InQuotes), '"');
      assert "\"" + Doubled(text) + "\"" == ['"'] + Doubled(text) + ['"'];
    } else {
      ReadPlain(r, text);
    }
  }

  // ---------------------------------------------------------------- rows and tables

  function GuardedRow(row: Cells, isHeader: bool, numeric: set<nat>): (r: Cells)
    ensures |r| == |row|
  {
    seq(|row|, j requires 0 <= j < |row| => Guarded(row[j], j, isHeader, numeric))
  }

  function GuardedTable(table: seq<Cells>, numeric: set<nat>): (r: seq<Cells>)
    ensures |r| == |table|
  {
    seq(|table|, i requires 0 <= i < |table| => GuardedRow(table[i], i == 0, numeric))
  }

  /** The reader stands behind the last cell of `row`, of which nothing else is pending. */
  ghost predicate Holds(s: Reader, records: seq<Cells>, row: Cells) {
    s.records == records && AtEnd(s) && s.row + [s.field] == row && (s.mode.RecordStart? <==> row == [""])
  }

  lemma JoinStep(parts: seq<string>, separator: string, k: nat)
    requires 1 <= k < |parts|
    ensures Join(parts[..k + 1], separator) == Join(parts[..k], separator) + separator + parts[k]
  {
    assert parts[..k + 1][..k] == parts[..k];
  }

  lemma JoinOne(parts: seq<string>, separator: string)
    requires 1 <= |parts|
    ensures Join(parts[..1], separator) == parts[0]
  {
  }

  predicate AtRecord(r: Reader) { r.mode.RecordStart? && r.row == [] && r.field == "" }

  lemma FirstCell(r: Reader, text: string)
    requires AtRecord(r)
    ensures Holds(FeedAll(r, Quoted(text)), r.records, [text])
  {
    ReadCell(r, text);
  }

  lemma NextCell(s: Reader, records: seq<Cells>, row: Cells, text: string)
    requires Holds(s, records, row)
    ensures Holds(FeedAll(FeedAll(s, ","), Quoted(text)), records, row + [text])
  {
    FeedOne(s, ',');
    ReadCell(s.EndField(), text);
  }

  lemma {:induction false} ReadCells(r: Reader, parts: Cells, texts: Cells, k: nat)
    requires AtRecord(r) && 1 <= k <= |parts| == |texts|
    requires forall j :: 0 <= j < |parts| ==> parts[j] == Quoted(texts[j])
    ensures Holds(FeedAll(r, Join(parts[..k], ",")), r.records, texts[..k])
    decreases k
  {
    hide *;
    if k == 1 {
      JoinOne(parts, ",");
      assert texts[..1] == [texts[0]];
      FirstCell(r, texts[0]);
    } else {
      ReadCells(r, parts, texts, k - 1);
      JoinStep(parts, ",", k - 1);
      assert texts[..k] == texts[..k - 1] + [texts[k - 1]];
      var before := Join(parts[..k - 1], ",");
      FeedInTwo(r, before + ",", parts[k - 1]);
      FeedInTwo(r, before, ",");
      NextCell(FeedAll(r, before), r.records, texts[..k - 1], texts[k - 1]);
    }
  }

  lemma ReadLine(r: Reader, row: Cells, isHeader: bool, numeric: set<nat>)
    requires AtRecord(r) && row != []
    ensures Holds(FeedAll(r, Line(row, isHeader, numeric)), r.records, GuardedRow(row, isHeader, numeric))
  {
    var parts, texts := Escaped(row, isHeader, numeric), GuardedRow(row, isHeader, numeric);
    ReadCells(r, parts, texts, |row|);
    assert parts[..|row|] == parts && texts[..|row|] == texts;
  }

  lemma EndLine(s: Reader, records: seq<Cells>, row: Cells)
    requires Holds(s, records, row)
    ensures FeedAll(s, "\r\n") == Reader(records + [row], [], "", RecordStart)
  {
    assert "\r\n" == ['\r'] + ['\n'];
    FeedInTwo(s, ['\r'], ['\n']);
    FeedOne(s, '\r');
    FeedOne(s.Feed('\r'), '\n');
  }

  ghost predicate NoEmptyRow(table: seq<Cells>) { forall i :: 0 <= i < |table| ==> table[i] != [] }

  /** The lines print the rows, and the rows read back as `texts`. */
  ghost predicate Prints(lines: seq<string>, texts: seq<Cells>) {
    |lines| == |texts| &&
    forall i, r :: 0 <= i < |lines| && AtRecord(r) ==> Holds(FeedAll(r, lines[i]), r.records, texts[i])
  }

  lemma LinesPrint(table: seq<Cells>, numeric: set<nat>)
    requires NoEmptyRow(table)
    ensures Prints(Lines(table, numeric), GuardedTable(table, numeric))
  {
    var lines, texts := Lines(table, numeric), GuardedTable(table, numeric);
    forall i, r | 0 <= i < |lines| && AtRecord(r) ensures Holds(FeedAll(r, lines[i]), r.records, texts[i]) {
      ReadLine(r, table[i], i == 0, numeric);
    }
  }

  lemma NextLine(s: Reader, records: seq<Cells>, row: Cells, lines: seq<string>, texts: seq<Cells>, i: nat)
    requires Holds(s, records, row) && Prints(lines, texts) && i < |lines|
    ensures Holds(FeedAll(FeedAll(s, "\r\n"), lines[i]), records + [row], texts[i])
  {
    EndLine(s, records, row);
    assert AtRecord(FeedAll(s, "\r\n"));
  }

  lemma FirstLine(lines: seq<string>, texts: seq<Cells>)
    requires Prints(lines, texts) && 1 <= |lines|
    ensures |lines| == |texts| && Holds(FeedAll(START, lines[0]), [], texts[0])
  {
    assert AtRecord(START);
  }

  lemma {:induction false} ReadLines(lines: seq<string>, texts: seq<Cells>, k: nat)
    requires Prints(lines, texts) && 1 <= k <= |lines|
    ensures Holds(FeedAll(START, Join(lines[..k], "\r\n")), texts[..k - 1], texts[k - 1])
    decreases k
  {
    hide *;
    FirstLine(lines, texts);
    if k == 1 {
      JoinOne(lines, "\r\n");
      assert texts[..0] == [];
    } else {
      ReadLines(lines, texts, k - 1);
      JoinStep(lines, "\r\n", k - 1);
      var before := Join(lines[..k - 1], "\r\n");
      FeedInTwo(START, before + "\r\n", lines[k - 1]);
      FeedInTwo(START, before, "\r\n");
      NextLine(FeedAll(START, before), texts[..k - 2], texts[k - 2], lines, texts, k - 1);
      assert texts[..k - 2] + [texts[k - 2]] == texts[..k - 1];
    }
  }

  /** A final record that is one empty cell prints as nothing, so its line break reads as the file's. */
  function Trimmed(table: seq<Cells>): seq<Cells> {
    if |table| > 1 && table[|table| - 1] == [""] then table[..|table| - 1] else table
  }

  lemma FinishTable(s: Reader, texts: seq<Cells>)
    requires texts != [] && Holds(s, texts[..|texts| - 1], texts[|texts| - 1])
    ensures s.Finish() == Some(Trimmed(texts))
  {
    assert texts == texts[..|texts| - 1] + [texts[|texts| - 1]];
  }

  lemma {:induction false} ReadPrinted(header: Cells, rows: seq<Cells>, numeric: set<nat>)
    requires NoEmptyRow([header] + rows)
    ensures Read(ToCsv(header, rows, numeric)) == Some(Trimmed(GuardedTable([header] + rows, numeric)))
  {
    var table := [header] + rows;
    LinesPrint(table, numeric);
    var n, lines, texts := |table|, Lines(table, numeric), GuardedTable(table, numeric);
    hide FeedAll, Holds, Prints, Lines, GuardedTable, Trimmed, Join, Reader.Finish, NoEmptyRow;
    ReadLines(lines, texts, n);
    assert lines[..n] == lines;
    FinishTable(FeedAll(START, Join(lines, "\r\n")), texts);
  }

  // ---------------------------------------------------------------- the round trip

  /** An empty row prints as nothing, and so does a row of one empty cell. */
  function Filled(row: Cells): Cells { if row == [] then [""] else row }

  function AllFilled(rows: seq<Cells>): (r: seq<Cells>)
    ensures |r| == |rows| && NoEmptyRow(r)
  {
    seq(|rows|, i requires 0 <= i < |rows| => Filled(rows[i]))
  }

  lemma EmptyRowPrints(isHeader: bool, numeric: set<nat>, row: Cells)
    ensures Line(Filled(row), isHeader, numeric) == Line(row, isHeader, numeric)
  {
    if row == [] {
      assert Escaped([""], isHeader, numeric) == [""];
      assert Escaped([], isHeader, numeric) == [];
    }
  }

  lemma FilledPrintsAlike(header: Cells, rows: seq<Cells>, numeric: set<nat>)
    ensures ToCsv(Filled(header), AllFilled(rows), numeric) == ToCsv(header, rows, numeric)
  {
    var table, filled := [header] + rows, [Filled(header)] + AllFilled(rows);
    forall i | 0 <= i < |table| ensures Lines(filled, numeric)[i] == Lines(table, numeric)[i] {
      EmptyRowPrints(i == 0, numeric, table[i]);
    }
    assert Lines(filled, numeric) == Lines(table, numeric);
  }

  /** Rows that come back as they went in: none is empty, and the last is not one empty cell. */
  predicate Readable(header: Cells, rows: seq<Cells>) {
    header != [] && (forall i :: 0 <= i < |rows| ==> rows[i] != []) && (rows != [] ==> rows[|rows| - 1] != [""])
  }

  predicate ReadableTable(table: seq<Cells>) {
    (forall i :: 0 <= i < |table| ==> table[i] != []) && (|table| > 1 ==> table[|table| - 1] != [""])
  }

  lemma ReadableAlike(header: Cells, rows: seq<Cells>)
    ensures Readable(header, rows) <==> ReadableTable([header] + rows)
  {
    var table := [header] + rows;
    assert table[0] == header && forall i :: 0 <= i < |rows| ==> rows[i] == table[i + 1];
  }

  lemma GuardKeepsEmpty(row: Cells, isHeader: bool, numeric: set<nat>)
    ensures GuardedRow(row, isHeader, numeric) == [""] <==> row == [""]
  {
    if |row| == 1 {
      assert GuardedRow(row, isHeader, numeric)[0] == Guarded(row[0], 0, isHeader, numeric);
    }
  }

  lemma FullTableKept(table: seq<Cells>, numeric: set<nat>)
    requires table != []
    ensures Trimmed(GuardedTable(table, numeric)) == GuardedTable(table, numeric)
            <==> (|table| > 1 ==> table[|table| - 1] != [""])
  {
    GuardKeepsEmpty(table[|table| - 1], |table| == 1, numeric);
  }

  lemma EmptyRowChanged(table: seq<Cells>, numeric: set<nat>, i: nat)
    requires i < |table| && table[i] == []
    ensures Trimmed(GuardedTable(AllFilled(table), numeric)) != GuardedTable(table, numeric)
  {
    assert |GuardedTable(AllFilled(table), numeric)[i]| == 1 && |GuardedTable(table, numeric)[i]| == 0;
  }

  lemma ReadableExactly(table: seq<Cells>, numeric: set<nat>)
    requires table != []
    ensures Trimmed(GuardedTable(AllFilled(table), numeric)) == GuardedTable(table, numeric) <==> ReadableTable(table)
  {
    if i: nat :| i < |table| && table[i] == [] {
      EmptyRowChanged(table, numeric, i);
    } else {
      assert AllFilled(table) == table;
      hide Trimmed, GuardedTable, AllFilled;
      FullTableKept(table, numeric);
    }
  }

  /**
   The round trip: what is read back is the table, each cell as it was or behind one tab, exactly
   when every row has a cell and the last row is not a single empty one.
   */
  lemma {:induction false} RoundTrip(header: Cells, rows: seq<Cells>, numeric: set<nat>)
    ensures Read(ToCsv(header, rows, numeric)) == Some(GuardedTable([header] + rows, numeric)) <==>
      Readable(header, rows)
  {
    FilledFits(header, rows);
    hide *;
    FilledPrintsAlike(header, rows, numeric);
    ReadPrinted(Filled(header), AllFilled(rows), numeric);
    ReadableExactly([header] + rows, numeric);
    ReadableAlike(header, rows);
  }

  lemma FilledFits(header: Cells, rows: seq<Cells>)
    ensures [Filled(header)] + AllFilled(rows) == AllFilled([header] + rows)
    ensures NoEmptyRow([Filled(header)] + AllFilled(rows))
  {
  }

  /** The one tab that marks a guarded cell can be taken off again, so the guard loses nothing. */
  function Unguarded(text: string): string { if text != "" && text[0] == '\t' then text[1..] else text }

  lemma GuardIsReversible(raw: string, column: nat, isHeader: bool, numeric: set<nat>)
    requires isHeader || column !in numeric
    ensures Unguarded(Guarded(raw, column, isHeader, numeric)) == raw
  {
  }

  /** Every cell read back is the original, or the original behind one tab exactly where it could be run. */
  lemma {:induction false} CellsReadBack(header: Cells, rows: seq<Cells>, numeric: set<nat>, i: nat, j: nat)
    requires Readable(header, rows) && i < |rows| + 1 && j < |([header] + rows)[i]|
    ensures var table := Read(ToCsv(header, rows, numeric));
      var raw := ([header] + rows)[i][j];
      && table.Some? && |table.value| == |rows| + 1 && |table.value[i]| == |([header] + rows)[i]|
      && table.value[i][j]
         == (if (i == 0 || j !in numeric) && raw != "" && raw[0] in "=+-@\t\r" then "\t" + raw else raw)
      && ((i == 0 || j !in numeric) && table.value[i][j] != "" ==> table.value[i][j][0] !in "=+-@")
  {
    RoundTrip(header, rows, numeric);
  }
}
