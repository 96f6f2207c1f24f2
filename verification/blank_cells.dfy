/** A c element without a v element, such as a styled blank cell
    <c r="B1" s="1"/>.  StartSheet moves expected_col past the column of
    every c it opens, while only EndSheet of a v writes a field, so the
    handlers of main write nothing for such a cell and the commas that
    would have stood for its column are never written: every later field
    of the row moves one column to the left, and the line ends up with one
    field fewer than the grid has columns.  The handlers with blank cells
    counted (Dispatch.FixedSheetPass) advance expected_col only when a v
    closes, so a blank cell's column is written as an empty field. */
module BlankCells {
  import opened CRuntime
  import opened Csv
  import opened Events
  import opened Dispatch
  import opened Elements
  import opened SheetProps

  /** <row r="1"><c r="A1"><v>a</v></c><c r="B1" s="1"/><c r="C1"><v>c</v></c></row> */
  function SampleRow(): Row {
    Row([], [Attr("r", "1")],
        [Cell([], 1, 1, [], [], Some(["a"]), []), Cell([], 2, 1, [Attr("s", "1")], [], None, []),
         Cell([], 3, 1, [], [], Some(["c"]), [])],
        [])
  }

  /** Inside sheetData of a worksheet whose dimension is A1:C1. */
  function SampleStart(): Ctx {
    Zero().(depth := 2, numCols := 3)
  }

  /** As written: the row comes out as "a,c" — two fields for three
      columns, with "c" read back in column B. */
  lemma BlankCellDropsField(s: Ctx, row: Row)
    requires s == SampleStart() && row == SampleRow()
    ensures CanRun(SheetPass, s, RowEvents(row))
    ensures Run(SheetPass, s, RowEvents(row)).out == "a,c\r\n"
    ensures SplitFields("a,c", ',') == ["a", "c"]
  {
    SampleRun(SheetPass, s, row);
    assert Commas(0) == [];
    assert ReadPlain(",c", ',') == ([], ",c");
    assert ReadPlain("a,c", ',') == ("a", ",c") by {
      assert "a,c"[1..] == ",c";
      assert ['a'] + [] == "a";
    }
    assert ReadPlain("c", ',') == ("c", []) by {
      assert "c"[1..] == [];
      assert ReadPlain([], ',') == ([], []);
      assert ['c'] + [] == "c";
    }
    assert SplitFields("c", ',') == ["c"];
    assert ",c"[1..] == "c";
  }

  /** With blank cells counted, the same row comes out as "a,,c": the
      blank cell keeps its column as an empty field. */
  lemma BlankCellKeepsField(s: Ctx, row: Row)
    requires s == SampleStart() && row == SampleRow()
    ensures CanRun(FixedSheetPass, s, RowEvents(row))
    ensures Run(FixedSheetPass, s, RowEvents(row)).out == "a,,c\r\n"
  {
    SampleRun(FixedSheetPass, s, row);
    assert Commas(1) == ",";
  }

  /** A cell in column col of row 1 holding the one letter x. */
  predicate LetterAt(c: Cell, col: nat, x: char) {
    c.lead == [] && c.col == col && c.row == 1 && c.attrs == [] && c.before == [] && c.value == Some([[x]]) &&
    c.after == []
  }

  /** A cell in column col of row 1 with a style and no value. */
  predicate BlankAt(c: Cell, col: nat) {
    c.lead == [] && c.col == col && c.row == 1 && c.attrs == [Attr("s", "1")] && c.before == [] &&
    c.value.None? && c.after == []
  }

  /** The sample row under either worksheet pass, from inside sheetData. */
  lemma SampleRun(p: Pass, s: Ctx, row: Row)
    requires p != SharedStringsPass && s.depth == 2 && !s.tv && s.numCols == 3 && s.out == []
    requires row.lead == [] && row.attrs == [Attr("r", "1")] && |row.cells| == 3 && row.trail == []
    requires LetterAt(row.cells[0], 1, 'a') && BlankAt(row.cells[1], 2) && LetterAt(row.cells[2], 3, 'c')
    ensures CanRun(p, s, RowEvents(row))
    ensures Run(p, s, RowEvents(row)).out == "a," + Commas(if p == SheetPass then 0 else 1) + "c" + "\r\n"
  {
    assert Named(row.attrs, "r") by { assert row.attrs[0].name == "r"; }
    RowOpen(s, row.attrs);
    var s1 := s.(expCol := 1, depth := 3);
    assert Step(p, s, Open("row", row.attrs)) == s1;
    SampleCells(p, s1, row.cells);
    var t := Run(p, s1, CellsEvents(row.cells));
    RowClose(p, t);
    RunAppend(p, s1, CellsEvents(row.cells), [Close("row")]);
    RunOne(p, s, Open("row", row.attrs), CellsEvents(row.cells) + [Close("row")]);
    BareRow(row);
    assert Commas(Padding(t.expCol, t.numCols)) == [];
  }

  /** A row with nothing before it and nothing after its last cell. */
  lemma BareRow(row: Row)
    requires row.lead == [] && row.trail == []
    ensures RowEvents(row) == [Open("row", row.attrs)] + (CellsEvents(row.cells) + [Close("row")])
  {
  }

  /** The three cells of the sample row, from the start of the row. */
  lemma SampleCells(p: Pass, s: Ctx, cells: seq<Cell>)
    requires p != SharedStringsPass && |cells| == 3
    requires LetterAt(cells[0], 1, 'a') && BlankAt(cells[1], 2) && LetterAt(cells[2], 3, 'c')
    requires s.depth == 3 && !s.tv && s.numCols == 3 && s.expCol == 1 && s.out == []
    ensures CanRun(p, s, CellsEvents(cells))
    ensures var t := Run(p, s, CellsEvents(cells));
      t.depth == 3 && t.numCols == 3 && t.expCol == 4 && t.out == "a," + Commas(if p == SheetPass then 0 else 1) + "c"
  {
    var c1, c2, c3 := cells[0], cells[1], cells[2];
    ThreeCells(cells);
    var two := CellEvents(c1) + CellEvents(c2);
    FirstTwo(p, s, c1, c2);
    var t2 := Run(p, s, two);
    LetterCell(p, t2, c3, 'c');
    var t3 := Run(p, t2, CellEvents(c3));
    assert ['c'] + "" == "c";
    RunAppend(p, s, two, CellEvents(c3));
  }

  /** The letter "a" in A1, then the blank cell in B1. */
  lemma FirstTwo(p: Pass, s: Ctx, c1: Cell, c2: Cell)
    requires p != SharedStringsPass && LetterAt(c1, 1, 'a') && BlankAt(c2, 2)
    requires s.depth == 3 && !s.tv && s.numCols == 3 && s.expCol == 1 && s.out == []
    ensures CanRun(p, s, CellEvents(c1) + CellEvents(c2))
    ensures var t := Run(p, s, CellEvents(c1) + CellEvents(c2));
      t.depth == 3 && !t.tv && t.numCols == 3 && t.shrStr == s.shrStr && t.out == "a," &&
      t.expCol == if p == SheetPass then 3 else 2
  {
    LetterCell(p, s, c1, 'a');
    var t1 := Run(p, s, CellEvents(c1));
    assert t1.out == "a," by {
      assert Commas(0) == [];
      assert [] + [] + ['a'] + "," == "a,";
    }
    BlankCell(p, t1, c2);
    RunAppend(p, s, CellEvents(c1), CellEvents(c2));
  }

  lemma ThreeCells(cells: seq<Cell>)
    requires |cells| == 3
    ensures CellsEvents(cells) == CellEvents(cells[0]) + CellEvents(cells[1]) + CellEvents(cells[2])
  {
    assert CellsEvents(cells[..1]) == CellEvents(cells[0]) by {
      assert cells[..1][..0] == [];
    }
    assert CellsEvents(cells[..2]) == CellEvents(cells[0]) + CellEvents(cells[1]) by {
      assert cells[..2][..1] == cells[..1];
    }
  }

  /** A cell holding one lower-case letter, in a row of the sample grid. */
  lemma LetterCell(p: Pass, s: Ctx, c: Cell, x: char)
    requires p != SharedStringsPass && 'a' <= x <= 'z' && LetterAt(c, c.col, x) && 1 <= c.col <= 3
    requires s.depth == 3 && !s.tv && s.numCols == 3 && s.expCol <= c.col
    ensures CanRun(p, s, CellEvents(c))
    ensures var t := Run(p, s, CellEvents(c));
      t.depth == 3 && !t.tv && t.numCols == 3 && t.shrStr == s.shrStr && t.expCol == c.col + 1 &&
      t.out == s.out + Commas(c.col - s.expCol) + ([x] + (if c.col < 3 then "," else ""))
  {
    LetterField(c, x, s.shrStr);
    ValuedCell(p, s, c, [x] + (if c.col < 3 then "," else ""));
  }

  /** A cell with a value, in a row of the sample grid, seen only through
      the field it writes. */
  lemma ValuedCell(p: Pass, s: Ctx, c: Cell, field: string)
    requires p != SharedStringsPass && 1 <= c.col <= 3 && c.value.Some? && CellOk(c) && Resolvable(c, s.shrStr)
    requires s.depth == 3 && !s.tv && s.numCols == 3 && s.expCol <= c.col
    requires CellField(c, s.shrStr, 3) == field
    ensures CanRun(p, s, CellEvents(c))
    ensures var t := Run(p, s, CellEvents(c));
      t.depth == 3 && !t.tv && t.numCols == 3 && t.shrStr == s.shrStr && t.expCol == c.col + 1 &&
      t.out == s.out + Commas(c.col - s.expCol) + field
  {
    RunCell(p, s, c);
    assert Gap(s.expCol, c.col, s.numCols) == c.col - s.expCol;
  }

  /** What such a cell writes. */
  lemma LetterField(c: Cell, x: char, table: seq<Option<string>>)
    requires 'a' <= x <= 'z' && LetterAt(c, c.col, x)
    ensures CellOk(c) && Resolvable(c, table)
    ensures CellField(c, table, 3) == [x] + (if c.col < 3 then "," else "")
  {
    assert Concat([[x]]) == [x] by { assert [[x]][..0] == []; }
    assert !Named(c.attrs, "r") && IsBytes([x]) && !IsShared(c.attrs);
    Letter(x);
  }

  /** A cell without a value, in a row of the sample grid. */
  lemma BlankCell(p: Pass, s: Ctx, c: Cell)
    requires p != SharedStringsPass && BlankAt(c, c.col) && 1 <= c.col <= 3
    requires s.depth == 3 && !s.tv && s.numCols == 3 && s.expCol == c.col
    ensures CanRun(p, s, CellEvents(c))
    ensures var t := Run(p, s, CellEvents(c));
      t.depth == 3 && !t.tv && t.numCols == 3 && t.shrStr == s.shrStr && t.out == s.out &&
      t.expCol == if p == SheetPass then c.col + 1 else c.col
  {
    assert !Named(c.attrs, "r");
    RunCell(p, s, c);
  }

  /** A lower-case letter is written as it is. */
  lemma Letter(c: char)
    requires 'a' <= c <= 'z'
    ensures Field(Some([c]), ',') == [c]
  {
    assert !HasFlagged([c][1..], ',') by { assert [c][1..] == []; }
    assert !MustQuote([c], ',');
  }

  /** The corrected handlers on any row with an r attribute and cells in
      increasing columns of the grid, blank ones included: the line reads
      back as exactly numCols fields, each cell with a value in its own
      column and every blank cell's column empty. */
  lemma BlankCellsKeepColumns(s: Ctx, row: Row)
    requires s.depth == 2 && !s.tv && s.numCols >= 1
    requires RowShape(row) && RowOk(row.cells, s.numCols, s.shrStr)
    ensures CanRun(FixedSheetPass, s, RowEvents(row))
    ensures var t := Run(FixedSheetPass, s, RowEvents(row));
      t.depth == 2 && !t.tv &&
      t.out == s.out + Line(Dense(s.numCols, row.cells, s.shrStr), ',') + "\r\n"
    ensures var vs := SplitFields(Line(Dense(s.numCols, row.cells, s.shrStr), ','), ',');
      |vs| == s.numCols &&
      (forall k :: 0 <= k < |row.cells| && row.cells[k].value.Some? ==>
         vs[Col(row.cells[k]) - 1] == Resolve(row.cells[k], s.shrStr).GetOr([])) &&
      (forall k :: 0 <= k < |row.cells| && row.cells[k].value.None? ==> vs[Col(row.cells[k]) - 1] == [])
  {
    RowLine(FixedSheetPass, s, row);
    DenseLineReadsBack(s.numCols, row.cells, s.shrStr);
  }
}
