/** The table preview's parser for comma- and tab-separated text, and what it makes
    of tables printed under section 2 of RFC 4180. */
module TablePreview {

  const MAX_CHARS := 4_000_000
  const MAX_ROWS := 2_000
  const MAX_CELLS := 200

  type Row = seq<string>

  datatype ParsedTable = ParsedTable(rows: seq<Row>, truncated: bool, unclosed: bool)

  /** The parser's variables between two characters. */
  datatype Scan = Scan(rows: seq<Row>, row: Row, cell: string, quoted: bool)

  /** Where the scan stopped, and whether it stopped at the row limit. */
  datatype Stop = Stop(scan: Scan, full: bool)

  function Cut(row: Row): (r: Row)
    ensures r <= row && |r| == if |row| <= 200 then |row| else 200
  {
    if |row| <= MAX_CELLS then row else row[..MAX_CELLS]
  }

  function LineEnd(s: string): (n: nat)
    requires s != ""
    ensures n <= |s|
  {
    if s[0] == '\n' then 1
    else if s[0] == '\r' then (if |s| > 1 && s[1] == '\n' then 2 else 1)
    else 0
  }

  /** The scan of the text s from state st. */
  function Run(s: string, st: Scan, delimiter: char): Stop
    decreases |s|
  {
    if s == "" then Stop(st, false)
    else if st.quoted then
      if s[0] == '"' && |s| > 1 && s[1] == '"' then Run(s[2..], st.(cell := st.cell + "\""), delimiter)
      else if s[0] == '"' then Run(s[1..], st.(quoted := false), delimiter)
      else Run(s[1..], st.(cell := st.cell + [s[0]]), delimiter)
    else if s[0] == '"' && st.cell == "" then Run(s[1..], st.(quoted := true), delimiter)
    else if s[0] == delimiter then Run(s[1..], st.(row := st.row + [st.cell], cell := ""), delimiter)
    else if LineEnd(s) > 0 then
      var next := Scan(st.rows + [Cut(st.row + [st.cell])], [], "", false);
      if |next.rows| >= MAX_ROWS then Stop(next, true) else Run(s[LineEnd(s)..], next, delimiter)
    else Run(s[1..], st.(cell := st.cell + [s[0]]), delimiter)
  }

  function Start(rows: seq<Row>): Scan {
    Scan(rows, [], "", false)
  }

  function Finish(stop: Stop, truncated: bool): ParsedTable {
    var st := stop.scan;
    if st.quoted then ParsedTable(st.rows, truncated || stop.full, true)
    else if st.cell != "" || st.row != [] then
      ParsedTable(st.rows + [Cut(st.row + [st.cell])], truncated || stop.full, false)
    else ParsedTable(st.rows, truncated || stop.full, false)
  }

  function Parse(text: string, delimiter: char): ParsedTable {
    var source := if |text| > MAX_CHARS then text[..MAX_CHARS] else text;
    Finish(Run(source, Start([]), delimiter), |text| > MAX_CHARS)
  }

  // ---- the display limits, on any text

  predicate Within(rows: seq<Row>, limit: nat) {
    |rows| <= limit && forall r | r in rows :: |r| <= MAX_CELLS
  }

  lemma {:induction false} RunWithin(s: string, st: Scan, delimiter: char)
    requires Within(st.rows, MAX_ROWS - 1)
    ensures Within(Run(s, st, delimiter).scan.rows, MAX_ROWS)
    ensures var stop := Run(s, st, delimiter);
            if stop.full then |stop.scan.rows| == MAX_ROWS && stop.scan == Start(stop.scan.rows)
            else |stop.scan.rows| < MAX_ROWS
    decreases |s|
  {
    if s != "" {
      if st.quoted {
        if s[0] == '"' && |s| > 1 && s[1] == '"' {
          RunWithin(s[2..], st.(cell := st.cell + "\""), delimiter);
        } else if s[0] == '"' {
          RunWithin(s[1..], st.(quoted := false), delimiter);
        } else {
          RunWithin(s[1..], st.(cell := st.cell + [s[0]]), delimiter);
        }
      } else if s[0] == '"' && st.cell == "" {
        RunWithin(s[1..], st.(quoted := true), delimiter);
      } else if s[0] == delimiter {
        RunWithin(s[1..], st.(row := st.row + [st.cell], cell := ""), delimiter);
      } else if LineEnd(s) > 0 {
        var next := Scan(st.rows + [Cut(st.row + [st.cell])], [], "", false);
        if |next.rows| < MAX_ROWS {
          RunWithin(s[LineEnd(s)..], next, delimiter);
        }
      } else {
        RunWithin(s[1..], st.(cell := st.cell + [s[0]]), delimiter);
      }
    }
  }

  /** Any text yields at most 2,000 rows of at most 200 cells. */
  lemma ParseWithin(text: string, delimiter: char)
    ensures |Parse(text, delimiter).rows| <= MAX_ROWS
    ensures forall r | r in Parse(text, delimiter).rows :: |r| <= MAX_CELLS
  {
    RunWithin(if |text| > MAX_CHARS then text[..MAX_CHARS] else text, Start([]), delimiter);
  }

  // ---- printing a table

  datatype Ending = LF | CR | CRLF

  datatype Cell = Cell(text: string, quoted: bool)

  /** A printed row: its cells, how each is printed, and the line break after it. */
  datatype Line = Line(cells: seq<Cell>, ending: Ending)

  predicate IsDelimiter(c: char) {
    c == ',' || c == '\t'
  }

  predicate Plain(c: char, delimiter: char) {
    c != delimiter && c != '\n' && c != '\r'
  }

  /** Cells that need no quotes may still have them; a bare cell may hold quotes,
      but not at its start. */
  predicate Printable(c: Cell, delimiter: char) {
    c.quoted || ((forall i | 0 <= i < |c.text| :: Plain(c.text[i], delimiter)) && (c.text != "" ==> c.text[0] != '"'))
  }

  predicate PrintableRow(cells: seq<Cell>, delimiter: char) {
    forall i | 0 <= i < |cells| :: Printable(cells[i], delimiter)
  }

  predicate PrintableLines(lines: seq<Line>, delimiter: char) {
    forall i | 0 <= i < |lines| :: lines[i].cells != [] && PrintableRow(lines[i].cells, delimiter)
  }

  function Escape(text: string): string {
    if text == "" then "" else (if text[0] == '"' then "\"\"" else [text[0]]) + Escape(text[1..])
  }

  function PrintCell(c: Cell): string {
    if c.quoted then "\"" + Escape(c.text) + "\"" else c.text
  }

  function PrintCells(cells: seq<Cell>, delimiter: char): string
    requires cells != []
  {
    if |cells| == 1 then PrintCell(cells[0])
    else PrintCell(cells[0]) + [delimiter] + PrintCells(cells[1..], delimiter)
  }

  function PrintEnding(e: Ending): string {
    match e
    case LF => "\n"
    case CR => "\r"
    case CRLF => "\r\n"
  }

  function PrintLines(lines: seq<Line>, delimiter: char): string
    requires PrintableLines(lines, delimiter)
  {
    if lines == [] then ""
    else PrintCells(lines[0].cells, delimiter) + PrintEnding(lines[0].ending) + PrintLines(lines[1..], delimiter)
  }

  /** The text of a table; tail is a last row without a line break, or empty. */
  function Print(lines: seq<Line>, tail: seq<Cell>, delimiter: char): string
    requires PrintableLines(lines, delimiter) && PrintableRow(tail, delimiter)
  {
    PrintLines(lines, delimiter) + PrintTail(tail, delimiter)
  }

  function Texts(cells: seq<Cell>): (r: Row)
    ensures |r| == |cells|
  {
    seq(|cells|, i requires 0 <= i < |cells| => cells[i].text)
  }

  // ---- scanning what was printed

  lemma {:induction false} ScanBare(t: string, rest: string, st: Scan, delimiter: char)
    requires !st.quoted && IsDelimiter(delimiter)
    requires (forall i | 0 <= i < |t| :: Plain(t[i], delimiter)) && (t != "" && st.cell == "" ==> t[0] != '"')
    ensures Run(t + rest, st, delimiter) == Run(rest, st.(cell := st.cell + t), delimiter)
    decreases |t|
  {
    if t == "" {
      assert t + rest == rest && st.cell + t == st.cell;
    } else {
      assert Plain(t[0], delimiter);
      assert (t + rest)[0] == t[0] && (t + rest)[1..] == t[1..] + rest;
      ScanBare(t[1..], rest, st.(cell := st.cell + [t[0]]), delimiter);
      assert st.cell + [t[0]] + t[1..] == st.cell + t;
    }
  }

  lemma {:induction false} ScanQuoted(t: string, rest: string, st: Scan, delimiter: char)
    requires st.quoted && (rest != "" ==> rest[0] != '"')
    ensures Run(Escape(t) + "\"" + rest, st, delimiter)
            == Run(rest, st.(cell := st.cell + t, quoted := false), delimiter)
    decreases |t|
  {
    var s := Escape(t) + "\"" + rest;
    if t == "" {
      assert s == "\"" + rest && s[1..] == rest;
      assert st.cell + t == st.cell;
    } else {
      var more := Escape(t[1..]) + "\"" + rest;
      if t[0] == '"' {
        assert s == "\"\"" + more && s[2..] == more;
      } else {
        assert s == [t[0]] + more && s[1..] == more;
      }
      ScanQuoted(t[1..], rest, st.(cell := st.cell + [t[0]]), delimiter);
      assert st.cell + [t[0]] + t[1..] == st.cell + t;
    }
  }

  /** A printed cell, before anything but a quote, scans to its text. */
  lemma ScanCell(c: Cell, rest: string, rows: seq<Row>, row: Row, delimiter: char)
    requires Printable(c, delimiter) && IsDelimiter(delimiter) && (rest != "" ==> rest[0] != '"')
    ensures Run(PrintCell(c) + rest, Scan(rows, row, "", false), delimiter)
            == Run(rest, Scan(rows, row, c.text, false), delimiter)
  {
    var st := Scan(rows, row, "", false);
    if c.quoted {
      var s := PrintCell(c) + rest;
      var body := Escape(c.text) + "\"" + rest;
      assert s == "\"" + body && s[1..] == body;
      ScanQuoted(c.text, rest, st.(quoted := true), delimiter);
    } else {
      ScanBare(c.text, rest, st, delimiter);
    }
    assert "" + c.text == c.text;
  }

  /** The scan after all cells but the last are in the row. */
  function AfterCells(cells: seq<Cell>, rows: seq<Row>, row: Row): Scan
    requires cells != []
  {
    Scan(rows, row + Texts(cells[..|cells| - 1]), cells[|cells| - 1].text, false)
  }

  lemma AfterFirst(cells: seq<Cell>, rows: seq<Row>, row: Row)
    requires |cells| > 1
    ensures AfterCells(cells[1..], rows, row + [cells[0].text]) == AfterCells(cells, rows, row)
  {
    var last := |cells| - 1;
    assert cells[1..][..last - 1] == cells[1..last];
    assert row + [cells[0].text] + Texts(cells[1..last]) == row + Texts(cells[..last]);
  }

  lemma PrintCellsFirst(cells: seq<Cell>, rest: string, delimiter: char)
    requires |cells| > 1
    ensures PrintCells(cells, delimiter) + rest
            == PrintCell(cells[0]) + ([delimiter] + (PrintCells(cells[1..], delimiter) + rest))
  {
  }

  /** Printed cells before a line break or the end scan to all but the last as the
      row and the last as the cell. */
  lemma {:induction false} ScanCells(cells: seq<Cell>, rest: string, rows: seq<Row>, row: Row, delimiter: char)
    requires cells != [] && PrintableRow(cells, delimiter) && IsDelimiter(delimiter)
    requires rest != "" ==> rest[0] != '"'
    ensures Run(PrintCells(cells, delimiter) + rest, Scan(rows, row, "", false), delimiter)
            == Run(rest, AfterCells(cells, rows, row), delimiter)
    decreases |cells|
  {
    if |cells| == 1 {
      ScanCell(cells[0], rest, rows, row, delimiter);
      assert row + Texts(cells[..0]) == row;
    } else {
      ScanFirstCell(cells, rest, rows, row, delimiter);
      ScanCells(cells[1..], rest, rows, row + [cells[0].text], delimiter);
      AfterFirst(cells, rows, row);
    }
  }

  lemma ScanFirstCell(cells: seq<Cell>, rest: string, rows: seq<Row>, row: Row, delimiter: char)
    requires |cells| > 1 && PrintableRow(cells, delimiter) && IsDelimiter(delimiter)
    ensures Run(PrintCells(cells, delimiter) + rest, Scan(rows, row, "", false), delimiter)
            == Run(PrintCells(cells[1..], delimiter) + rest, Scan(rows, row + [cells[0].text], "", false), delimiter)
  {
    var after := PrintCells(cells[1..], delimiter) + rest;
    PrintCellsFirst(cells, rest, delimiter);
    ScanCell(cells[0], [delimiter] + after, rows, row, delimiter);
  }

  /** A line break adds the row; a CR swallows a line feed that follows it. */
  lemma ScanEnding(ending: Ending, rest: string, rows: seq<Row>, row: Row, cell: string, delimiter: char)
    requires IsDelimiter(delimiter)
    ensures var rows2 := rows + [Cut(row + [cell])];
            Run(PrintEnding(ending) + rest, Scan(rows, row, cell, false), delimiter)
            == if |rows2| >= MAX_ROWS then Stop(Start(rows2), true)
               else Run(if ending.CR? && rest != "" && rest[0] == '\n' then rest[1..] else rest, Start(rows2), delimiter)
  {
    var end := PrintEnding(ending) + rest;
    match ending
    case LF => assert end[1..] == rest;
    case CR => assert end[1..] == rest && (rest != "" ==> end[2..] == rest[1..]);
    case CRLF => assert end[2..] == rest;
  }

  /** A printed line adds its row. */
  lemma ScanLine(line: Line, rest: string, rows: seq<Row>, delimiter: char)
    requires line.cells != [] && PrintableRow(line.cells, delimiter) && IsDelimiter(delimiter)
    ensures var rows2 := rows + [Cut(Texts(line.cells))];
            Run(PrintCells(line.cells, delimiter) + (PrintEnding(line.ending) + rest), Start(rows), delimiter)
            == if |rows2| >= MAX_ROWS then Stop(Start(rows2), true)
               else Run(if line.ending.CR? && rest != "" && rest[0] == '\n' then rest[1..] else rest, Start(rows2), delimiter)
  {
    var last := |line.cells| - 1;
    ScanCells(line.cells, PrintEnding(line.ending) + rest, rows, [], delimiter);
    assert [] + Texts(line.cells[..last]) == Texts(line.cells[..last]);
    assert Texts(line.cells[..last]) + [line.cells[last].text] == Texts(line.cells);
    ScanEnding(line.ending, rest, rows, Texts(line.cells[..last]), line.cells[last].text, delimiter);
  }

  // ---- the rows that come back

  /** A row that is one bare empty cell and a line feed: its text is "\n". */
  predicate IsLoneFeed(line: Line) {
    |line.cells| == 1 && line.cells[0] == Cell("", false) && line.ending.LF?
  }

  /** The rows of the printed lines, but for a lone line feed right after a CR, which
      reads as the second half of a CRLF. */
  function RowsRead(lines: seq<Line>, afterCR: bool): (r: seq<Row>)
    ensures |r| <= |lines|
  {
    if lines == [] then []
    else if afterCR && IsLoneFeed(lines[0]) then RowsRead(lines[1..], false)
    else [Cut(Texts(lines[0].cells))] + RowsRead(lines[1..], lines[0].ending.CR?)
  }

  predicate NoLoneFeedAfterCR(lines: seq<Line>) {
    forall i | 0 < i < |lines| :: !(lines[i - 1].ending.CR? && IsLoneFeed(lines[i]))
  }

  /** The rest of a printed text after lines that may end in CR. */
  function Following(lines: seq<Line>, tail: seq<Cell>, afterCR: bool, delimiter: char): string
    requires PrintableLines(lines, delimiter) && PrintableRow(tail, delimiter)
  {
    if afterCR && lines != [] && IsLoneFeed(lines[0]) then Print(lines[1..], tail, delimiter)
    else Print(lines, tail, delimiter)
  }

  lemma PrintFirst(lines: seq<Line>, tail: seq<Cell>, delimiter: char)
    requires lines != [] && PrintableLines(lines, delimiter) && PrintableRow(tail, delimiter)
    ensures PrintableLines(lines[1..], delimiter)
    ensures Print(lines, tail, delimiter)
            == PrintCells(lines[0].cells, delimiter) + (PrintEnding(lines[0].ending) + Print(lines[1..], tail, delimiter))
  {
  }

  lemma FollowingIs(lines: seq<Line>, tail: seq<Cell>, delimiter: char)
    requires PrintableLines(lines, delimiter) && PrintableRow(tail, delimiter) && IsDelimiter(delimiter)
    ensures var s := Print(lines, tail, delimiter);
            Following(lines, tail, true, delimiter) == if s != "" && s[0] == '\n' then s[1..] else s
  {
    if lines == [] {
      if tail != [] {
        assert Print(lines, tail, delimiter) == PrintCells(tail, delimiter) + "";
      }
    } else {
      PrintFirst(lines, tail, delimiter);
    }
  }

  function TailRow(tail: seq<Cell>): seq<Row> {
    if tail == [] || (|tail| == 1 && tail[0].text == "") then [] else [Cut(Texts(tail))]
  }

  /** The text of a last row without a line break. */
  function PrintTail(tail: seq<Cell>, delimiter: char): string {
    if tail == [] then "" else PrintCells(tail, delimiter)
  }

  lemma AfterAll(cells: seq<Cell>, rows: seq<Row>)
    requires cells != []
    ensures var st := AfterCells(cells, rows, []);
            && st.row + [st.cell] == Texts(cells)
            && st.rows == rows && !st.quoted
            && (st.cell == "" && st.row == [] <==> |cells| == 1 && cells[0].text == "")
  {
    var last := |cells| - 1;
    assert [] + Texts(cells[..last]) == Texts(cells[..last]);
    assert |Texts(cells[..last])| == last;
  }

  lemma FinishTail(tail: seq<Cell>, rows: seq<Row>, delimiter: char)
    requires PrintableRow(tail, delimiter) && IsDelimiter(delimiter)
    ensures Finish(Run(PrintTail(tail, delimiter), Start(rows), delimiter), false)
            == ParsedTable(rows + TailRow(tail), false, false)
  {
    assert rows + [] == rows;
    if tail != [] {
      ScanCells(tail, "", rows, [], delimiter);
      assert PrintCells(tail, delimiter) + "" == PrintTail(tail, delimiter);
      assert Run("", AfterCells(tail, rows, []), delimiter) == Stop(AfterCells(tail, rows, []), false);
      AfterAll(tail, rows);
    }
  }

  /** What is returned once rows were read and tail is left. */
  function Returned(read: seq<Row>, tail: seq<Cell>): ParsedTable {
    if |read| >= MAX_ROWS then ParsedTable(read[..MAX_ROWS], true, false)
    else ParsedTable(read + TailRow(tail), false, false)
  }

  /** What the parser makes of a printed table from a state that has read rows. */
  lemma {:induction false} ReadLines(lines: seq<Line>, tail: seq<Cell>, afterCR: bool, rows: seq<Row>, delimiter: char)
    requires PrintableLines(lines, delimiter) && PrintableRow(tail, delimiter) && IsDelimiter(delimiter)
    requires |rows| < MAX_ROWS
    ensures Finish(Run(Following(lines, tail, afterCR, delimiter), Start(rows), delimiter), false)
            == Returned(rows + RowsRead(lines, afterCR), tail)
    decreases |lines|
  {
    if lines == [] {
      assert rows + [] == rows;
      assert Following(lines, tail, afterCR, delimiter) == "" + PrintTail(tail, delimiter) == PrintTail(tail, delimiter);
      FinishTail(tail, rows, delimiter);
      assert rows + RowsRead(lines, afterCR) == rows;
    } else if afterCR && IsLoneFeed(lines[0]) {
      assert Following(lines[1..], tail, false, delimiter) == Following(lines, tail, afterCR, delimiter);
      assert RowsRead(lines[1..], false) == RowsRead(lines, afterCR);
      ReadLines(lines[1..], tail, false, rows, delimiter);
    } else {
      assert Following(lines, tail, afterCR, delimiter) == Print(lines, tail, delimiter);
      ReadFirst(lines, tail, rows, delimiter);
      var rows2 := rows + [Cut(Texts(lines[0].cells))];
      var more := RowsRead(lines[1..], lines[0].ending.CR?);
      RowsReadFirst(lines, afterCR, rows);
      if |rows2| < MAX_ROWS {
        ReadLines(lines[1..], tail, lines[0].ending.CR?, rows2, delimiter);
      } else {
        assert (rows2 + more)[..MAX_ROWS] == rows2;
        assert Finish(Stop(Start(rows2), true), false) == Returned(rows2 + more, tail);
      }
    }
  }

  lemma RowsReadFirst(lines: seq<Line>, afterCR: bool, rows: seq<Row>)
    requires lines != [] && !(afterCR && IsLoneFeed(lines[0]))
    ensures rows + RowsRead(lines, afterCR)
            == rows + [Cut(Texts(lines[0].cells))] + RowsRead(lines[1..], lines[0].ending.CR?)
  {
  }

  lemma ReadFirst(lines: seq<Line>, tail: seq<Cell>, rows: seq<Row>, delimiter: char)
    requires lines != [] && PrintableLines(lines, delimiter) && PrintableRow(tail, delimiter) && IsDelimiter(delimiter)
    ensures var rows2 := rows + [Cut(Texts(lines[0].cells))];
            Run(Print(lines, tail, delimiter), Start(rows), delimiter)
            == if |rows2| >= MAX_ROWS then Stop(Start(rows2), true)
               else Run(Following(lines[1..], tail, lines[0].ending.CR?, delimiter), Start(rows2), delimiter)
  {
    PrintFirst(lines, tail, delimiter);
    ScanLine(lines[0], Print(lines[1..], tail, delimiter), rows, delimiter);
    FollowingIs(lines[1..], tail, delimiter);
  }

  function AllRows(lines: seq<Line>, tail: seq<Cell>): seq<Row> {
    seq(|lines|, i requires 0 <= i < |lines| => Cut(Texts(lines[i].cells)))
    + (if tail == [] then [] else [Cut(Texts(tail))])
  }

  /** No lone line feed is read as the second half of a CRLF. */
  predicate NoneSwallowed(lines: seq<Line>, afterCR: bool) {
    NoLoneFeedAfterCR(lines) && !(afterCR && lines != [] && IsLoneFeed(lines[0]))
  }

  lemma {:induction false} ReadAllOrFewer(lines: seq<Line>, afterCR: bool)
    ensures NoneSwallowed(lines, afterCR) ==> RowsRead(lines, afterCR) == AllRows(lines, [])
    ensures |RowsRead(lines, afterCR)| == |lines| ==> NoneSwallowed(lines, afterCR)
  {
    if lines != [] {
      var next := lines[1..];
      ReadAllOrFewer(next, if afterCR && IsLoneFeed(lines[0]) then false else lines[0].ending.CR?);
      assert AllRows(lines, []) == [Cut(Texts(lines[0].cells))] + AllRows(next, []);
    }
  }

  /** A table of at most 2,000 rows, printed in at most 4,000,000 characters, parses
      back to its rows, each cut to 200 cells, exactly when no row of one bare empty
      cell and a line feed follows a CR, and a last row without a line break is not
      one empty cell. The truncation flag is up when 2,000 rows have a line break. */
  lemma ParseInvertsPrint(lines: seq<Line>, tail: seq<Cell>, delimiter: char)
    requires PrintableLines(lines, delimiter) && PrintableRow(tail, delimiter) && IsDelimiter(delimiter)
    requires |Print(lines, tail, delimiter)| <= MAX_CHARS && |AllRows(lines, tail)| <= MAX_ROWS
    ensures var parsed := Parse(Print(lines, tail, delimiter), delimiter);
            && !parsed.unclosed
            && (parsed.rows == AllRows(lines, tail)
                <==> NoLoneFeedAfterCR(lines) && !(|tail| == 1 && tail[0].text == ""))
            && (NoLoneFeedAfterCR(lines) ==> (parsed.truncated <==> |lines| == MAX_ROWS))
  {
    assert Following(lines, tail, false, delimiter) == Print(lines, tail, delimiter);
    ReadLines(lines, tail, false, [], delimiter);
    ReadAllOrFewer(lines, false);
    var read := RowsRead(lines, false);
    assert [] + read == read;
    assert |AllRows(lines, tail)| == |lines| + (if tail == [] then 0 else 1);
    if |read| == |lines| {
      assert AllRows(lines, tail) == AllRows(lines, []) + (if tail == [] then [] else [Cut(Texts(tail))]);
      if |lines| == MAX_ROWS {
        assert read[..MAX_ROWS] == read && AllRows(lines, tail) == read;
      }
    }
  }

  /** The smallest table that does not come back: "a", CR, an empty row, LF. */
  lemma LoneFeedIsLost()
    ensures var lines := [Line([Cell("a", false)], CR), Line([Cell("", false)], LF)];
            && PrintableLines(lines, ',')
            && Print(lines, [], ',') == "a\r\n"
            && Parse("a\r\n", ',').rows == [["a"]]
            && AllRows(lines, []) == [["a"], [""]]
  {
    var lines := [Line([Cell("a", false)], CR), Line([Cell("", false)], LF)];
    assert PrintLines(lines[2..], ',') == "";
    assert PrintLines(lines[1..], ',') == "\n";
    assert lines[1..][1..] == lines[2..];
    ParseInvertsPrint(lines, [], ',');
    ReadLines(lines, [], false, [], ',');
    assert Following(lines, [], false, ',') == "a\r\n";
    assert RowsRead(lines[2..], false) == [] && RowsRead(lines[1..], true) == [];
    assert Texts([Cell("a", false)]) == ["a"] && Texts([Cell("", false)]) == [""];
  }

  /** A longer table keeps its first 2,000 rows, and the flag says so. */
  lemma ParseKeepsFirstRows(lines: seq<Line>, tail: seq<Cell>, delimiter: char)
    requires PrintableLines(lines, delimiter) && PrintableRow(tail, delimiter) && IsDelimiter(delimiter)
    requires |Print(lines, tail, delimiter)| <= MAX_CHARS && NoLoneFeedAfterCR(lines) && |lines| >= MAX_ROWS
    ensures Parse(Print(lines, tail, delimiter), delimiter)
            == ParsedTable(AllRows(lines, tail)[..MAX_ROWS], true, false)
  {
    assert Following(lines, tail, false, delimiter) == Print(lines, tail, delimiter);
    ReadLines(lines, tail, false, [], delimiter);
    ReadAllOrFewer(lines, false);
    assert [] + RowsRead(lines, false) == AllRows(lines, []);
    assert AllRows(lines, tail)[..MAX_ROWS] == AllRows(lines, [])[..MAX_ROWS];
  }

  // ---- what the parser reports

  /** Of a longer text only the first 4,000,000 characters are read, and the flag says so. */
  lemma LongTextIsCut(text: string, delimiter: char)
    requires |text| > 4_000_000
    ensures var parsed, first := Parse(text, delimiter), Parse(text[..4_000_000], delimiter);
            parsed.rows == first.rows && parsed.unclosed == first.unclosed && parsed.truncated
  {
    assert text[..4_000_000][..4_000_000] == text[..4_000_000];
  }

  /** Cells and then a quoted cell that the text does not close. */
  function OpenTail(cells: seq<Cell>, t: string, delimiter: char): string {
    if cells == [] then "\"" + Escape(t) else PrintCell(cells[0]) + [delimiter] + OpenTail(cells[1..], t, delimiter)
  }

  lemma OpenCellStep(t: string, st: Scan, delimiter: char)
    requires st.quoted && t != ""
    ensures Run(Escape(t), st, delimiter) == Run(Escape(t[1..]), st.(cell := st.cell + [t[0]]), delimiter)
  {
    var s, more := Escape(t), Escape(t[1..]);
    if t[0] == '"' {
      assert s == "\"\"" + more && s[2..] == more;
    } else {
      assert s == [t[0]] + more && s[1..] == more;
    }
  }

  lemma {:induction false} ScanOpenCell(t: string, st: Scan, delimiter: char)
    requires st.quoted
    ensures Run(Escape(t), st, delimiter) == Stop(st.(cell := st.cell + t), false)
    decreases |t|
  {
    if t == "" {
      assert st.cell + t == st.cell;
    } else {
      var next := st.(cell := st.cell + [t[0]]);
      OpenCellStep(t, st, delimiter);
      ScanOpenCell(t[1..], next, delimiter);
      assert next.cell + t[1..] == st.cell + t;
      assert next.(cell := next.cell + t[1..]) == st.(cell := st.cell + t);
    }
  }

  lemma {:induction false} ScanOpenFirst(cells: seq<Cell>, t: string, rows: seq<Row>, row: Row, delimiter: char)
    requires cells != [] && PrintableRow(cells, delimiter) && IsDelimiter(delimiter)
    ensures Run(OpenTail(cells, t, delimiter), Scan(rows, row, "", false), delimiter)
            == Run(OpenTail(cells[1..], t, delimiter), Scan(rows, row + [cells[0].text], "", false), delimiter)
  {
    var rest := OpenTail(cells[1..], t, delimiter);
    assert OpenTail(cells, t, delimiter) == PrintCell(cells[0]) + ([delimiter] + rest);
    ScanCell(cells[0], [delimiter] + rest, rows, row, delimiter);
    assert ([delimiter] + rest)[1..] == rest;
  }

  lemma {:induction false} ScanOpenTail(cells: seq<Cell>, t: string, rows: seq<Row>, row: Row, delimiter: char)
    requires PrintableRow(cells, delimiter) && IsDelimiter(delimiter)
    ensures var stop := Run(OpenTail(cells, t, delimiter), Scan(rows, row, "", false), delimiter);
            stop.scan.quoted && stop.scan.rows == rows && !stop.full
    decreases |cells|
  {
    var s := OpenTail(cells, t, delimiter);
    if cells == [] {
      assert s[1..] == Escape(t);
      ScanOpenCell(t, Scan(rows, row, "", true), delimiter);
    } else {
      ScanOpenFirst(cells, t, rows, row, delimiter);
      ScanOpenTail(cells[1..], t, rows, row + [cells[0].text], delimiter);
    }
  }

  lemma OpenTailStart(cells: seq<Cell>, t: string, delimiter: char)
    requires PrintableRow(cells, delimiter) && IsDelimiter(delimiter)
    ensures OpenTail(cells, t, delimiter) != "" && OpenTail(cells, t, delimiter)[0] != '\n'
  {
  }

  /** After a CR only a lone line feed begins with a line feed. */
  lemma NextStart(lines: seq<Line>, rest: string, delimiter: char)
    requires PrintableLines(lines, delimiter) && IsDelimiter(delimiter) && rest != "" && rest[0] != '\n'
    requires lines != [] ==> !IsLoneFeed(lines[0])
    ensures var s := PrintLines(lines, delimiter) + rest; s != "" && s[0] != '\n'
  {
    if lines != [] {
      FollowingIs(lines, [], delimiter);
      assert Print(lines, [], delimiter) == PrintLines(lines, delimiter) + "" == PrintLines(lines, delimiter);
      PrintFirst(lines, [], delimiter);
    }
  }

  lemma LinesSplit(lines: seq<Line>, rest: string, delimiter: char)
    requires lines != [] && PrintableLines(lines, delimiter) && PrintableLines(lines[1..], delimiter)
    ensures PrintLines(lines, delimiter) + rest
            == PrintCells(lines[0].cells, delimiter) + (PrintEnding(lines[0].ending) + (PrintLines(lines[1..], delimiter) + rest))
  {
  }

  lemma RestStarts(lines: seq<Line>, rest: string, delimiter: char)
    requires lines != [] && PrintableLines(lines, delimiter) && NoLoneFeedAfterCR(lines) && IsDelimiter(delimiter)
    requires rest != "" && rest[0] != '\n' && lines[0].ending.CR?
    ensures PrintableLines(lines[1..], delimiter)
    ensures var next := PrintLines(lines[1..], delimiter) + rest; next != "" && next[0] != '\n'
  {
    if |lines| > 1 {
      assert !(lines[0].ending.CR? && IsLoneFeed(lines[1]));
    }
    NextStart(lines[1..], rest, delimiter);
  }

  lemma {:induction false} ScanFirstLine(lines: seq<Line>, rest: string, rows: seq<Row>, delimiter: char)
    requires lines != [] && PrintableLines(lines, delimiter) && IsDelimiter(delimiter) && NoLoneFeedAfterCR(lines)
    requires rest != "" && rest[0] != '\n' && |rows| + 1 < MAX_ROWS && PrintableLines(lines[1..], delimiter)
    ensures Run(PrintLines(lines, delimiter) + rest, Start(rows), delimiter)
            == Run(PrintLines(lines[1..], delimiter) + rest, Start(rows + [Cut(Texts(lines[0].cells))]), delimiter)
  {
    LinesSplit(lines, rest, delimiter);
    ScanLine(lines[0], PrintLines(lines[1..], delimiter) + rest, rows, delimiter);
    if lines[0].ending.CR? {
      RestStarts(lines, rest, delimiter);
    }
  }

  lemma AllRowsFirst(lines: seq<Line>, rows: seq<Row>)
    requires lines != []
    ensures rows + AllRows(lines, []) == rows + [Cut(Texts(lines[0].cells))] + AllRows(lines[1..], [])
  {
  }

  lemma {:induction false} ScanLines(lines: seq<Line>, rest: string, rows: seq<Row>, delimiter: char)
    requires PrintableLines(lines, delimiter) && IsDelimiter(delimiter) && NoLoneFeedAfterCR(lines)
    requires rest != "" && rest[0] != '\n' && |rows| + |lines| < MAX_ROWS
    ensures Run(PrintLines(lines, delimiter) + rest, Start(rows), delimiter) == Run(rest, Start(rows + AllRows(lines, [])), delimiter)
    decreases |lines|
  {
    if lines == [] {
      assert rows + AllRows(lines, []) == rows && PrintLines(lines, delimiter) + rest == rest;
    } else {
      ScanFirstLine(lines, rest, rows, delimiter);
      ScanLines(lines[1..], rest, rows + [Cut(Texts(lines[0].cells))], delimiter);
      AllRowsFirst(lines, rows);
    }
  }

  /** A text that ends inside a quoted cell gives exactly the rows before that cell's row, and
      the flag is up. */
  lemma OpenQuoteIsReported(lines: seq<Line>, cells: seq<Cell>, t: string, delimiter: char)
    requires PrintableLines(lines, delimiter) && PrintableRow(cells, delimiter) && IsDelimiter(delimiter)
    requires NoLoneFeedAfterCR(lines) && |lines| < MAX_ROWS
    requires |PrintLines(lines, delimiter) + OpenTail(cells, t, delimiter)| <= MAX_CHARS
    ensures Parse(PrintLines(lines, delimiter) + OpenTail(cells, t, delimiter), delimiter) == ParsedTable(AllRows(lines, []), false, true)
  {
    OpenTailStart(cells, t, delimiter);
    ScanLines(lines, OpenTail(cells, t, delimiter), [], delimiter);
    assert [] + AllRows(lines, []) == AllRows(lines, []);
    ScanOpenTail(cells, t, AllRows(lines, []), [], delimiter);
  }

  // ---- the program

  method ParseTable(text: string, delimiter: char) returns (table: ParsedTable)
    ensures table == Parse(text, delimiter)
  {
    var rows: seq<Row> := [];
    var row: Row := [];
    var cell := "";
    var quoted := false;
    var truncated := false;
    var source := if |text| > MAX_CHARS then text[..MAX_CHARS] else text;
    if |source| < |text| {
      truncated := true;
    }
    ghost var whole := Run(source, Start([]), delimiter);
    var full := false;
    var i := 0;
    while i < |source| && !full
      invariant i <= |source|
      invariant full ==> whole == Stop(Scan(rows, row, cell, quoted), true)
      invariant !full ==> Run(source[i..], Scan(rows, row, cell, quoted), delimiter) == whole
      invariant truncated == (|text| > MAX_CHARS || full)
      decreases |source| - i, !full
    {
      var c := source[i];
      assert source[i..][0] == c && source[i..][1..] == source[i + 1..];
      assert i + 1 < |source| ==> source[i..][1] == source[i + 1] && source[i..][2..] == source[i + 2..];
      if quoted {
        if c == '"' && i + 1 < |source| && source[i + 1] == '"' {
          cell := cell + "\"";
          i := i + 1;
        } else if c == '"' {
          quoted := false;
        } else {
          cell := cell + [c];
        }
      } else if c == '"' && |cell| == 0 {
        quoted := true;
      } else if c == delimiter {
        row := row + [cell];
        cell := "";
      } else if c == '\n' || c == '\r' {
        if c == '\r' && i + 1 < |source| && source[i + 1] == '\n' {
          i := i + 1;
        }
        row := row + [cell];
        cell := "";
        rows := rows + [Cut(row)];
        row := [];
        if |rows| >= MAX_ROWS {
          truncated := true;
          full := true;
        }
      } else {
        cell := cell + [c];
      }
      i := i + 1;
    }
    assert source[|source|..] == "";
    if quoted {
      return ParsedTable(rows, truncated, true);
    }
    if cell != "" || row != [] {
      row := row + [cell];
      rows := rows + [Cut(row)];
    }
    return ParsedTable(rows, truncated, false);
  }
}
