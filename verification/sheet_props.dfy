/** What the worksheet pass writes for whole cells, rows and sheets: every
    row becomes one CSV line with one field per column of the dimension,
    each cell's value in its own column and empty fields for the cells the
    sheet leaves out.  The lemmas hold for the handlers of main and for the
    handlers with blank cells counted; for the handlers of main, every cell
    must have a value. */
module SheetProps {
  import opened CRuntime
  import opened CellRef
  import opened Csv
  import opened Events
  import opened Dispatch
  import opened Elements

  // ---- Documents ----

  /** A c element, with what precedes it inside its row since the previous
      cell (or the start of the row): the column and row its reference
      names, its attributes after r (such as s and t), what it holds before
      its value (such as the formula f), the character data of its v
      element as the tokenizer delivers it, or None for a cell without v,
      such as a styled blank, and what it holds after its value. */
  datatype Cell = Cell(lead: seq<Node>, col: nat, row: nat, attrs: seq<Attr>, before: seq<Node>,
                       value: Option<seq<string>>, after: seq<Node>)

  /** A row element, with what precedes it inside sheetData since the
      previous row: its attributes (r, spans, ht and so on), its cells, and
      what it holds after its last cell. */
  datatype Row = Row(lead: seq<Node>, attrs: seq<Attr>, cells: seq<Cell>, trail: seq<Node>)

  /** A worksheet: the attributes of worksheet (its namespaces), what comes
      before dimension (sheetPr), the range of dimension, what comes between
      dimension and sheetData (sheetViews, sheetFormatPr, cols), the rows of
      sheetData, what follows the last row inside sheetData, and what comes
      after sheetData (mergeCells, pageMargins and so on).  Any of these
      parts may hold character data such as line breaks and indentation. */
  datatype Sheet = Sheet(attrs: seq<Attr>, head: seq<Node>, dim: string, body: seq<Node>, rows: seq<Row>,
                         dataTail: seq<Node>, tail: seq<Node>)

  /** The column a cell's reference names. */
  function Col(c: Cell): int {
    c.col
  }

  /** The reference as a worksheet writes it, e.g. "AB67". */
  function Ref(c: Cell): string {
    ColumnName(c.col) + DecimalString(c.row)
  }

  /** r first, as a worksheet writes it, then the cell's other attributes. */
  function CellAttrs(c: Cell): seq<Attr> {
    [Attr("r", Ref(c))] + c.attrs
  }

  /** lead <c r=".." ..> before <v>..</v> after </c> */
  function CellEvents(c: Cell): seq<Event> {
    NodesEvents(c.lead) + CellElement(c)
  }

  function CellElement(c: Cell): seq<Event> {
    [Open("c", CellAttrs(c))] + (NodesEvents(c.before) + CellEnd(c))
  }

  /** What follows the children of a cell before its value: the value, if
      it has one, the children after it, and the end of c. */
  function CellEnd(c: Cell): seq<Event> {
    ValuePart(c.value) + (NodesEvents(c.after) + [Close("c")])
  }

  function ValuePart(value: Option<seq<string>>): seq<Event> {
    match value
    case None => []
    case Some(f) => ValueEvents(f)
  }

  /** <v>..</v> */
  function ValueEvents(f: seq<string>): seq<Event> {
    [Open("v", [])] + (Texts(f) + [Close("v")])
  }

  function CellsEvents(cells: seq<Cell>): seq<Event>
    decreases |cells|
  {
    if cells == [] then [] else CellsEvents(cells[..|cells| - 1]) + CellEvents(cells[|cells| - 1])
  }

  /** lead <row ..> cells trail </row> */
  function RowEvents(row: Row): seq<Event> {
    NodesEvents(row.lead) + RowElement(row)
  }

  function RowElement(row: Row): seq<Event> {
    [Open("row", row.attrs)] + (CellsEvents(row.cells) + (NodesEvents(row.trail) + [Close("row")]))
  }

  function RowsEvents(rows: seq<Row>): seq<Event>
    decreases |rows|
  {
    if rows == [] then [] else RowsEvents(rows[..|rows| - 1]) + RowEvents(rows[|rows| - 1])
  }

  /** <worksheet ..> head, then the dimension and what follows it up to the
      start of sheetData. */
  function SheetHead(sh: Sheet): seq<Event> {
    [Open("worksheet", sh.attrs)] + (NodesEvents(sh.head) + DimensionEvents(sh))
  }

  /** <dimension ref=".."/> body <sheetData> */
  function DimensionEvents(sh: Sheet): seq<Event> {
    [Open("dimension", [Attr("ref", sh.dim)])] + ([Close("dimension")] + (NodesEvents(sh.body) + [Open("sheetData", [])]))
  }

  /** dataTail </sheetData> tail </worksheet> */
  function SheetTail(sh: Sheet): seq<Event> {
    NodesEvents(sh.dataTail) + ([Close("sheetData")] + (NodesEvents(sh.tail) + [Close("worksheet")]))
  }

  function SheetEvents(sh: Sheet): seq<Event> {
    SheetHead(sh) + (RowsEvents(sh.rows) + SheetTail(sh))
  }

  // ---- What a cell stands for ----

  /** EndSheet looks the value up in the shared-string table when a t
      attribute of the cell starts with 's'. */
  predicate SetsLookup(a: Attr) {
    a.name == "t" && |a.value| > 0 && a.value[0] == 's'
  }

  predicate IsShared(attrs: seq<Attr>) {
    exists i :: 0 <= i < |attrs| && SetsLookup(attrs[i])
  }

  /** A cell the handlers can take in: r is its only attribute of that
      name, what surrounds the c element and its value is passed over, and
      its value is bytes that fit in shr_buff with the terminator. */
  predicate CellOk(c: Cell) {
    !Named(c.attrs, "r") && AllInert(c.lead, 3, false) && AllInert(c.before, 4, false) &&
    AllInert(c.after, 4, false) &&
    (c.value.Some? ==> AllBytes(c.value.value) && |Concat(c.value.value)| < BuffSize)
  }

  /** A shared-string cell names an existing entry of the table. */
  predicate Resolvable(c: Cell, table: seq<Option<string>>) {
    c.value.Some? && IsShared(c.attrs) ==> 0 <= Atoi(Concat(c.value.value)) < |table|
  }

  /** The field a cell stands for: its table entry or its own text, and
      NULL for a cell without a value. */
  function Resolve(c: Cell, table: seq<Option<string>>): Option<string>
    requires Resolvable(c, table)
  {
    match c.value
    case None => None
    case Some(f) => if IsShared(c.attrs) then table[Atoi(Concat(f))] else Some(Concat(f))
  }

  /** What a cell writes after the commas of the columns it skips: its
      field, with a separator unless it is in the last column of the grid
      or beyond, or nothing for a cell without a value. */
  function CellField(c: Cell, table: seq<Option<string>>, w: int): string
    requires Resolvable(c, table)
  {
    if c.value.Some? then CsvTerm(Resolve(c, table), ',', Col(c) < w) else []
  }

  /** Cells in strictly increasing columns, all inside a grid of width w,
      each one the handlers can take in and resolvable in the table. */
  predicate RowOk(cells: seq<Cell>, w: int, table: seq<Option<string>>) {
    AllResolvable(cells, table) &&
    (forall i, j :: 0 <= i < j < |cells| ==> Col(cells[i]) < Col(cells[j])) &&
    (forall k :: 0 <= k < |cells| ==> 1 <= Col(cells[k]) <= w && CellOk(cells[k]))
  }

  predicate AllResolvable(cells: seq<Cell>, table: seq<Option<string>>) {
    forall k :: 0 <= k < |cells| ==> Resolvable(cells[k], table)
  }

  /** The pass writes a field for every cell: each cell has a value, or
      the pass is the one with blank cells counted. */
  predicate Counted(p: Pass, cells: seq<Cell>) {
    p == FixedSheetPass || forall k :: 0 <= k < |cells| ==> cells[k].value.Some?
  }

  /** The field of the last cell in column col, None when there is none. */
  function Lookup(cells: seq<Cell>, col: int, table: seq<Option<string>>): Option<string>
    requires AllResolvable(cells, table)
    decreases |cells|
  {
    if cells == [] then None
    else if Col(cells[|cells| - 1]) == col then Resolve(cells[|cells| - 1], table)
    else Lookup(cells[..|cells| - 1], col, table)
  }

  /** The row as a full grid line of w fields: column j + 1 holds its cell's
      field, or NULL when the sheet has no cell with a value there. */
  function Dense(w: nat, cells: seq<Cell>, table: seq<Option<string>>): (d: seq<Option<string>>)
    requires AllResolvable(cells, table)
    ensures |d| == w
  {
    seq(w, j requires 0 <= j < w => Lookup(cells, j + 1, table))
  }

  predicate RowsResolvable(rows: seq<Row>, table: seq<Option<string>>) {
    forall i :: 0 <= i < |rows| ==> AllResolvable(rows[i].cells, table)
  }

  /** The CSV text of a sheet: one line of w fields per row, each ended by
      CR LF. */
  function CsvText(w: nat, rows: seq<Row>, table: seq<Option<string>>): string
    requires RowsResolvable(rows, table)
    decreases |rows|
  {
    if rows == [] then []
    else CsvText(w, rows[..|rows| - 1], table) + Line(Dense(w, rows[|rows| - 1].cells, table), ',') + "\r\n"
  }

  /** A row element with an r attribute, where what precedes it and what
      follows its last cell is passed over. */
  predicate RowShape(row: Row) {
    Named(row.attrs, "r") && AllInert(row.lead, 2, false) && AllInert(row.trail, 3, false)
  }

  /** Every row is so shaped and has cells the pass writes in order. */
  predicate RowsOk(p: Pass, rows: seq<Row>, w: int, table: seq<Option<string>>) {
    forall i :: 0 <= i < |rows| ==>
      RowShape(rows[i]) && RowOk(rows[i].cells, w, table) && Counted(p, rows[i].cells)
  }

  /** The width of the grid the dimension declares. */
  function Width(sh: Sheet): int {
    RangeCoords(sh.dim).0
  }

  /** A worksheet of at least one column whose other parts the pass goes
      past and whose rows it writes in order. */
  predicate SheetOk(p: Pass, sh: Sheet, table: seq<Option<string>>) {
    Width(sh) >= 1 && AllInert(sh.head, 1, false) && AllInert(sh.body, 1, false) &&
    AllInert(sh.dataTail, 2, false) && AllInert(sh.tail, 1, false) && RowsOk(p, sh.rows, Width(sh), table)
  }

  // ---- Lookup ----

  lemma {:induction false} LookupHit(cells: seq<Cell>, k: nat, w: int, table: seq<Option<string>>)
    requires RowOk(cells, w, table) && k < |cells|
    ensures Lookup(cells, Col(cells[k]), table) == Resolve(cells[k], table)
    decreases |cells|
  {
    var n := |cells| - 1;
    if k < n {
      assert Col(cells[k]) < Col(cells[n]);
      var init := cells[..n];
      assert init[k] == cells[k];
      LookupHit(init, k, w, table);
    }
  }

  lemma {:induction false} LookupMiss(cells: seq<Cell>, col: int, table: seq<Option<string>>)
    requires AllResolvable(cells, table)
    requires forall k :: 0 <= k < |cells| ==> Col(cells[k]) != col
    ensures Lookup(cells, col, table) == None
    decreases |cells|
  {
    if cells != [] {
      var init := cells[..|cells| - 1];
      assert forall k :: 0 <= k < |init| ==> init[k] == cells[k];
      LookupMiss(init, col, table);
    }
  }

  // ---- Cells ----

  /** Attributes of c other than r set the lookup flag exactly when one of
      them is a t starting with 's'. */
  lemma {:induction false} CellLoopOthers(s: Ctx, attrs: seq<Attr>)
    requires !Named(attrs, "r")
    ensures ApplyAttrs(CellLoop, s, attrs) == s.(lookupV := s.lookupV || IsShared(attrs))
    decreases |attrs|
  {
    if attrs != [] {
      var init := attrs[..|attrs| - 1];
      var a := attrs[|attrs| - 1];
      assert forall i :: 0 <= i < |init| ==> init[i] == attrs[i];
      CellLoopOthers(s, init);
      assert a.name != "r";
      assert IsShared(attrs) <==> IsShared(init) || SetsLookup(a);
    }
  }

  /** Opening a cell places it, writes one comma per skipped column inside
      the grid, and marks a table lookup exactly when a t attribute starts
      with 's' (so t="str" is looked up too).  The handlers of main expect
      the column after the cell next; with blank cells counted, the cell's
      own column stays expected until its value is written. */
  lemma CellOpen(p: Pass, s: Ctx, ref: string, attrs: seq<Attr>)
    requires p != SharedStringsPass && s.depth == 3 && !Named(attrs, "r")
    ensures var cr := CellCoords(ref);
      Step(p, s, Open("c", [Attr("r", ref)] + attrs))
      == s.(curCol := cr.0, curRow := cr.1, out := s.out + Commas(Gap(s.expCol, cr.0, s.numCols)),
            expCol := if p == SheetPass then cr.0 + 1 else cr.0, lookupV := IsShared(attrs), depth := 4)
  {
    var r := [Attr("r", ref)];
    var a0 := s.(lookupV := false);
    var a1 := PlaceCell(a0, ref);
    assert r[..0] == [];
    assert ApplyAttrs(CellLoop, a0, r) == a1;
    ApplyAttrsAppend(CellLoop, a0, r, attrs);
    CellLoopOthers(a1, attrs);
    assert (r + attrs)[0].name == "r";
  }

  /** Opening a cell written with its own reference puts the cell at its
      column and row. */
  lemma CellOpenAt(p: Pass, s: Ctx, c: Cell)
    requires p != SharedStringsPass && s.depth == 3 && c.col >= 1 && !Named(c.attrs, "r")
    ensures Step(p, s, Open("c", CellAttrs(c)))
      == s.(curCol := c.col, curRow := c.row, out := s.out + Commas(Gap(s.expCol, c.col, s.numCols)),
            expCol := if p == SheetPass then c.col + 1 else c.col, lookupV := IsShared(c.attrs), depth := 4)
  {
    CellRefRoundTrip(c.col, c.row);
    CellOpen(p, s, Ref(c), c.attrs);
  }

  /** A cell inside a row writes the commas of the columns it skips, then
      its field, followed by a separator unless it is in the last column of
      the grid or beyond, and expects the column after it next.  A cell
      without a value writes no field and no separator; the handlers of
      main still expect the column after it, while with blank cells counted
      its own column stays expected. */
  lemma RunCell(p: Pass, s: Ctx, c: Cell)
    requires p != SharedStringsPass && s.depth == 3 && !s.tv && c.col >= 1 && CellOk(c) && Resolvable(c, s.shrStr)
    ensures CanRun(p, s, CellEvents(c))
    ensures var t := Run(p, s, CellEvents(c));
      t.depth == 3 && !t.tv && t.numCols == s.numCols && t.shrStr == s.shrStr && t.curCol == Col(c) &&
      t.expCol == (if c.value.None? && p == FixedSheetPass then Col(c) else Col(c) + 1) &&
      t.out == s.out + Commas(Gap(s.expCol, Col(c), s.numCols)) + CellField(c, s.shrStr, s.numCols)
  {
    RunNodes(p, s, c.lead);
    RunCellElement(p, s, c);
    RunAppend(p, s, NodesEvents(c.lead), CellElement(c));
  }

  lemma RunCellElement(p: Pass, s: Ctx, c: Cell)
    requires p != SharedStringsPass && s.depth == 3 && !s.tv && c.col >= 1 && CellOk(c) && Resolvable(c, s.shrStr)
    ensures CanRun(p, s, CellElement(c))
    ensures var t := Run(p, s, CellElement(c));
      t.depth == 3 && !t.tv && t.numCols == s.numCols && t.shrStr == s.shrStr && t.curCol == Col(c) &&
      t.expCol == (if c.value.None? && p == FixedSheetPass then Col(c) else Col(c) + 1) &&
      t.out == s.out + Commas(Gap(s.expCol, Col(c), s.numCols)) + CellField(c, s.shrStr, s.numCols)
  {
    var s1 := s.(curCol := c.col, curRow := c.row, out := s.out + Commas(Gap(s.expCol, c.col, s.numCols)),
                 expCol := if p == SheetPass then c.col + 1 else c.col, lookupV := IsShared(c.attrs), depth := 4);
    CellOpenAt(p, s, c);
    RunNodes(p, s1, c.before);
    RunCellEnd(p, s1, c);
    RunAppend(p, s1, NodesEvents(c.before), CellEnd(c));
    RunOne(p, s, Open("c", CellAttrs(c)), NodesEvents(c.before) + CellEnd(c));
  }

  /** After the children before its value, a cell writes its value, if it
      has one, passes over the children after it, and closes. */
  lemma RunCellEnd(p: Pass, s: Ctx, c: Cell)
    requires p != SharedStringsPass && s.depth == 4 && !s.tv && s.curCol == c.col && CellOk(c)
    requires s.lookupV == IsShared(c.attrs) && Resolvable(c, s.shrStr)
    ensures CanRun(p, s, CellEnd(c))
    ensures var t := Run(p, s, CellEnd(c));
      t.depth == 3 && !t.tv && t.numCols == s.numCols && t.shrStr == s.shrStr && t.curCol == s.curCol &&
      t.expCol == (if c.value.Some? && p == FixedSheetPass then c.col + 1 else s.expCol) &&
      t.out == s.out + CellField(c, s.shrStr, s.numCols)
  {
    var vp := ValuePart(c.value);
    RunValuePart(p, s, c);
    var m := Run(p, s, vp);
    RunNodes(p, m, c.after);
    RunOne(p, m, Close("c"), []);
    RunAppend(p, m, NodesEvents(c.after), [Close("c")]);
    RunAppend(p, s, vp, NodesEvents(c.after) + [Close("c")]);
  }

  /** The value of a cell, if it has one, writes the cell's field. */
  lemma RunValuePart(p: Pass, s: Ctx, c: Cell)
    requires p != SharedStringsPass && s.depth == 4 && !s.tv && s.curCol == c.col && CellOk(c)
    requires s.lookupV == IsShared(c.attrs) && Resolvable(c, s.shrStr)
    ensures CanRun(p, s, ValuePart(c.value))
    ensures var m := Run(p, s, ValuePart(c.value));
      m.depth == 4 && !m.tv && m.numCols == s.numCols && m.shrStr == s.shrStr && m.curCol == s.curCol &&
      m.expCol == (if c.value.Some? && p == FixedSheetPass then c.col + 1 else s.expCol) &&
      m.out == s.out + CellField(c, s.shrStr, s.numCols)
  {
    match c.value
    case None =>
      assert s.out + [] == s.out;
    case Some(f) =>
      RunValue(p, s, f);
  }

  /** The value element of a cell captures its text and, when it closes,
      writes the field: the table entry the text names when the lookup flag
      is set, the text itself otherwise. */
  lemma RunValue(p: Pass, s: Ctx, f: seq<string>)
    requires p != SharedStringsPass && s.depth == 4 && AllBytes(f) && |Concat(f)| < BuffSize
    requires s.lookupV ==> 0 <= Atoi(Concat(f)) < |s.shrStr|
    ensures CanRun(p, s, ValueEvents(f))
    ensures var v := if s.lookupV then s.shrStr[Atoi(Concat(f))] else Some(Concat(f));
      Run(p, s, ValueEvents(f))
      == s.(tv := false, buff := Concat(f), out := s.out + CsvTerm(v, ',', s.curCol < s.numCols),
            expCol := if p == SheetPass then s.expCol else s.curCol + 1)
  {
    var s2 := s.(depth := 5, tv := true, buff := []);
    assert Step(p, s, Open("v", [])) == s2;
    RunTexts(p, s2, f);
    var s3 := s2.(buff := Concat(f));
    assert [] + Concat(f) == Concat(f);
    RunValueClose(p, s3);
    RunAppend(p, s2, Texts(f), [Close("v")]);
    RunOne(p, s, Open("v", []), Texts(f) + [Close("v")]);
  }

  /** Closing v writes the cell's field. */
  lemma RunValueClose(p: Pass, s: Ctx)
    requires p != SharedStringsPass && s.depth == 5 && CanSheetClose(s, "v")
    ensures CanRun(p, s, [Close("v")])
    ensures Run(p, s, [Close("v")])
      == s.(depth := 4, tv := false, out := s.out + CsvTerm(CellValue(s), ',', s.curCol < s.numCols),
            expCol := if p == SheetPass then s.expCol else s.curCol + 1)
  {
  }

  // ---- The line of a row ----

  /** The column of the k-th cell, 0 before the first. */
  function PrevCol(all: seq<Cell>, k: nat): int
    requires k <= |all|
  {
    if k == 0 then 0 else Col(all[k - 1])
  }

  /** The columns of the line written after the first k cells: up to the
      k-th cell's column, or the one before it when that cell has no value
      and its empty field is left to what comes next. */
  function Reach(all: seq<Cell>, k: nat): int
    requires k <= |all|
  {
    if k == 0 then 0 else if all[k - 1].value.Some? then Col(all[k - 1]) else Col(all[k - 1]) - 1
  }

  /** The field of a cell stands in the cell's column of the line. */
  lemma DenseHit(w: nat, cells: seq<Cell>, k: nat, table: seq<Option<string>>)
    requires RowOk(cells, w, table) && k < |cells|
    ensures 0 <= Col(cells[k]) - 1 < w
    ensures Dense(w, cells, table)[Col(cells[k]) - 1] == Resolve(cells[k], table)
  {
    var j := Col(cells[k]) - 1;
    assert Dense(w, cells, table)[j] == Lookup(cells, j + 1, table);
    LookupHit(cells, k, w, table);
  }

  /** After the first k cells, the fields of the line up to the next cell
      (or to the end of the line) that are not yet written are NULL. */
  lemma NullsAfter(w: nat, all: seq<Cell>, k: nat, table: seq<Option<string>>, d: seq<Option<string>>)
    requires RowOk(all, w, table) && k <= |all| && d == Dense(w, all, table)
    ensures 0 <= Reach(all, k) <= PrevCol(all, k) <= w
    ensures forall j :: Reach(all, k) <= j < w && (k == |all| || j + 1 < Col(all[k])) ==> d[j].None?
  {
    var hi := if k == |all| then w + 1 else Col(all[k]);
    forall i | 0 <= i < |all|
      ensures Col(all[i]) <= PrevCol(all, k) || hi <= Col(all[i])
    {
      if i < k - 1 {
        assert Col(all[i]) < Col(all[k - 1]);
      } else if k < i {
        assert Col(all[k]) < Col(all[i]);
      }
    }
    NoCellNoField(w, all, table, PrevCol(all, k), hi);
    if k > 0 && all[k - 1].value.None? {
      DenseHit(w, all, k - 1, table);
    }
  }

  /** Columns no cell falls in are NULL fields of the line. */
  lemma NoCellNoField(w: nat, cells: seq<Cell>, table: seq<Option<string>>, lo: int, hi: int)
    requires AllResolvable(cells, table)
    requires forall i :: 0 <= i < |cells| ==> Col(cells[i]) <= lo || hi <= Col(cells[i])
    ensures forall j :: 0 <= j < w && lo <= j && j + 1 < hi ==> Dense(w, cells, table)[j].None?
  {
    forall j | 0 <= j < w && lo <= j && j + 1 < hi
      ensures Dense(w, cells, table)[j].None?
    {
      LookupMiss(cells, j + 1, table);
    }
  }

  /** The k-th cell extends the output by the NULL fields of the columns
      it skips and by its own field, so the output holds the line up to and
      including the k-th cell's column, or up to the column before it for
      a cell without a value. */
  lemma CellOutput(so: string, to: string, uo: string, d: seq<Option<string>>, all: seq<Cell>, k: nat,
                   w: nat, table: seq<Option<string>>)
    requires w >= 1 && RowOk(all, w, table) && 1 <= k <= |all| && d == Dense(w, all, table)
    requires 0 <= Reach(all, k - 1) <= w
    requires to == so + Span(d, ',', 0, Reach(all, k - 1))
    requires uo == to + Commas(Gap(Reach(all, k - 1) + 1, Col(all[k - 1]), w)) + CellField(all[k - 1], table, w)
    ensures 0 <= Reach(all, k) <= w
    ensures uo == so + Span(d, ',', 0, Reach(all, k))
  {
    CellColumns(w, all, k, table, d);
    var r := Reach(all, k - 1);
    var c := Col(all[k - 1]);
    if all[k - 1].value.Some? {
      GapThenField(so, to, uo, d, r, c, Resolve(all[k - 1], table));
    } else {
      GapOnly(so, to, uo, d, r, c);
    }
  }

  /** The commas of the NULL columns after column p and the field of column
      c extend the line from column p to column c. */
  lemma GapThenField(so: string, to: string, uo: string, d: seq<Option<string>>, p: nat, c: nat,
                     v: Option<string>)
    requires p < c <= |d| && d[c - 1] == v
    requires forall j :: p <= j < c - 1 ==> d[j].None?
    requires to == so + Span(d, ',', 0, p)
    requires uo == to + Commas(Gap(p + 1, c, |d|)) + CsvTerm(v, ',', c < |d|)
    ensures uo == so + Span(d, ',', 0, c)
  {
    GapCommas(p, c, |d|);
    SpanGapStep(d, ',', p, c - 1, v, c < |d|, so, uo);
  }

  /** The commas of the NULL columns after column p, up to a cell in
      column c without a value, extend the line to column c - 1. */
  lemma GapOnly(so: string, to: string, uo: string, d: seq<Option<string>>, p: nat, c: nat)
    requires p < c <= |d|
    requires forall j :: p <= j < c - 1 ==> d[j].None?
    requires to == so + Span(d, ',', 0, p)
    requires uo == to + Commas(Gap(p + 1, c, |d|)) + []
    ensures uo == so + Span(d, ',', 0, c - 1)
  {
    GapCommas(p, c, |d|);
    SpanOfNulls(d, ',', p, c - 1);
    SpanJoin(d, ',', 0, p, c - 1);
  }

  /** Inside the grid, the gap after column p up to column c is one comma
      per column strictly between them. */
  lemma GapCommas(p: nat, c: nat, w: nat)
    requires p < c <= w
    ensures Commas(Gap(p + 1, c, w)) == Seps(c - 1 - p, ',')
  {
  }

  /** In the line of a row, the columns between what the first k - 1 cells
      wrote and the k-th cell are NULL, and the k-th cell's column holds its
      field. */
  lemma CellColumns(w: nat, all: seq<Cell>, k: nat, table: seq<Option<string>>, d: seq<Option<string>>)
    requires RowOk(all, w, table) && 1 <= k <= |all| && d == Dense(w, all, table)
    ensures 0 <= Reach(all, k - 1) < Col(all[k - 1]) <= w
    ensures forall j :: Reach(all, k - 1) <= j < Col(all[k - 1]) - 1 ==> d[j].None?
    ensures d[Col(all[k - 1]) - 1] == Resolve(all[k - 1], table)
  {
    NullsAfter(w, all, k - 1, table, d);
    DenseHit(w, all, k - 1, table);
    if k >= 2 {
      assert Col(all[k - 2]) < Col(all[k - 1]);
    }
  }

  /** The context after the first k cells of a row opened in s. */
  predicate CellsDone(s: Ctx, t: Ctx, all: seq<Cell>, k: nat)
    requires k <= |all|
  {
    t.depth == 3 && !t.tv && t.numCols == s.numCols && t.shrStr == s.shrStr &&
    t.expCol == Reach(all, k) + 1
  }

  /** One more cell of the row. */
  lemma CellsRunStep(p: Pass, s: Ctx, all: seq<Cell>, k: nat)
    requires p != SharedStringsPass && s.numCols >= 1 && RowOk(all, s.numCols, s.shrStr) && Counted(p, all)
    requires 1 <= k <= |all|
    requires CanRun(p, s, CellsEvents(all[..k - 1]))
    requires CellsDone(s, Run(p, s, CellsEvents(all[..k - 1])), all, k - 1)
    ensures CanRun(p, s, CellsEvents(all[..k]))
    ensures var t := Run(p, s, CellsEvents(all[..k - 1]));
      var u := Run(p, s, CellsEvents(all[..k]));
      CellsDone(s, u, all, k) &&
      u.out == t.out + Commas(Gap(Reach(all, k - 1) + 1, Col(all[k - 1]), s.numCols)) + CellField(all[k - 1], s.shrStr, s.numCols)
  {
    var c := all[k - 1];
    var before := CellsEvents(all[..k - 1]);
    var t := Run(p, s, before);
    assert all[..k][..k - 1] == all[..k - 1];
    assert CellsEvents(all[..k]) == before + CellEvents(c);
    assert p == SheetPass ==> c.value.Some?;
    RunCell(p, t, c);
    RunAppend(p, s, before, CellEvents(c));
  }

  /** After the first k cells of a row, the output holds the fields of
      columns 1 .. Reach(all, k), NULL fields included. */
  lemma {:induction false} RunCells(p: Pass, s: Ctx, all: seq<Cell>, k: nat, d: seq<Option<string>>)
    requires p != SharedStringsPass && s.depth == 3 && !s.tv && s.expCol == 1 && s.numCols >= 1
    requires RowOk(all, s.numCols, s.shrStr) && Counted(p, all) && k <= |all|
    requires d == Dense(s.numCols, all, s.shrStr)
    ensures CanRun(p, s, CellsEvents(all[..k]))
    ensures CellsDone(s, Run(p, s, CellsEvents(all[..k])), all, k)
    ensures 0 <= Reach(all, k) <= s.numCols
    ensures Run(p, s, CellsEvents(all[..k])).out == s.out + Span(d, ',', 0, Reach(all, k))
    decreases k
  {
    if k == 0 {
      assert all[..0] == [];
      assert s.out + [] == s.out;
    } else {
      RunCells(p, s, all, k - 1, d);
      CellsRunStep(p, s, all, k);
      CellOutput(s.out, Run(p, s, CellsEvents(all[..k - 1])).out,
                 Run(p, s, CellsEvents(all[..k])).out, d, all, k, s.numCols, s.shrStr);
    }
  }

  /** A row element with an r attribute whose cells are in increasing
      columns inside the grid writes one CSV line of exactly numCols fields,
      each cell's field in its own column and NULL fields elsewhere, then
      CR LF. */
  lemma RowLine(p: Pass, s: Ctx, row: Row)
    requires p != SharedStringsPass && s.depth == 2 && !s.tv && s.numCols >= 1
    requires RowShape(row) && RowOk(row.cells, s.numCols, s.shrStr) && Counted(p, row.cells)
    ensures CanRun(p, s, RowEvents(row))
    ensures var t := Run(p, s, RowEvents(row));
      t.depth == 2 && !t.tv && t.numCols == s.numCols && t.shrStr == s.shrStr &&
      t.out == s.out + Line(Dense(s.numCols, row.cells, s.shrStr), ',') + "\r\n"
  {
    RunNodes(p, s, row.lead);
    RowBody(p, s, row);
    RunAppend(p, s, NodesEvents(row.lead), RowElement(row));
  }

  lemma RowBody(p: Pass, s: Ctx, row: Row)
    requires p != SharedStringsPass && s.depth == 2 && !s.tv && s.numCols >= 1
    requires RowShape(row) && RowOk(row.cells, s.numCols, s.shrStr) && Counted(p, row.cells)
    ensures CanRun(p, s, RowElement(row))
    ensures var t := Run(p, s, RowElement(row));
      t.depth == 2 && !t.tv && t.numCols == s.numCols && t.shrStr == s.shrStr &&
      t.out == s.out + Line(Dense(s.numCols, row.cells, s.shrStr), ',') + "\r\n"
  {
    var w := s.numCols;
    var cells := row.cells;
    var d := Dense(w, cells, s.shrStr);
    RowOpen(s, row.attrs);
    var s1 := s.(expCol := 1, depth := 3);
    assert Step(p, s, Open("row", row.attrs)) == s1;
    RunCells(p, s1, cells, |cells|, d);
    assert cells[..|cells|] == cells;
    var t := Run(p, s1, CellsEvents(cells));
    var close := NodesEvents(row.trail) + [Close("row")];
    RunNodes(p, t, row.trail);
    RowClose(p, t);
    RunAppend(p, t, NodesEvents(row.trail), [Close("row")]);
    RunAppend(p, s1, CellsEvents(cells), close);
    RunOne(p, s, Open("row", row.attrs), CellsEvents(cells) + close);
    RowPadding(w, cells, s.shrStr);
    Regroup3(s.out, Span(d, ',', 0, Reach(cells, |cells|)), Commas(Padding(Reach(cells, |cells|) + 1, w)));
  }

  /** Closing a row pads it to the width of the grid and ends the line. */
  lemma RowClose(p: Pass, t: Ctx)
    requires p != SharedStringsPass && t.depth == 3
    ensures CanRun(p, t, [Close("row")])
    ensures Run(p, t, [Close("row")])
      == t.(depth := 2, out := t.out + Commas(Padding(t.expCol, t.numCols)) + "\r\n")
  {
    RunOne(p, t, Close("row"), []);
  }

  /** Opening a row restarts the expected column at 1 exactly when the row
      has an attribute named r, whatever its other attributes; a row without
      one keeps the column where the previous row left it. */
  lemma RowOpen(s: Ctx, attrs: seq<Attr>)
    requires s.depth == 2
    ensures SheetOpen(s, "row", attrs) == (if Named(attrs, "r") then s.(expCol := 1) else s).(depth := 3)
  {
    RowLoopResets(s, attrs);
  }

  lemma {:induction false} RowLoopResets(s: Ctx, attrs: seq<Attr>)
    ensures ApplyAttrs(RowLoop, s, attrs) == if Named(attrs, "r") then s.(expCol := 1) else s
    decreases |attrs|
  {
    if attrs != [] {
      var init := attrs[..|attrs| - 1];
      var a := attrs[|attrs| - 1];
      assert forall i :: 0 <= i < |init| ==> init[i] == attrs[i];
      RowLoopResets(s, init);
      assert Named(attrs, "r") <==> Named(init, "r") || a.name == "r";
    }
  }

  /** The commas EndSheet writes after the last cell complete the line with
      the NULL fields of the remaining columns. */
  lemma RowPadding(w: nat, cells: seq<Cell>, table: seq<Option<string>>)
    requires w >= 1 && RowOk(cells, w, table)
    ensures 0 <= Reach(cells, |cells|) <= w
    ensures Span(Dense(w, cells, table), ',', 0, Reach(cells, |cells|))
      + Commas(Padding(Reach(cells, |cells|) + 1, w)) == Line(Dense(w, cells, table), ',')
  {
    var d := Dense(w, cells, table);
    NullsAfter(w, cells, |cells|, table, d);
    LineOfNullTail(d, ',', Reach(cells, |cells|));
  }

  /** The line of a row reads back, field by field, as the row's values:
      numCols fields, each cell's value in its column, empty text wherever
      the sheet has no cell. */
  lemma DenseLineReadsBack(w: nat, cells: seq<Cell>, table: seq<Option<string>>)
    requires w >= 1 && RowOk(cells, w, table)
    ensures CountSeps(Line(Dense(w, cells, table), ','), ',', false) == w - 1
    ensures |SplitFields(Line(Dense(w, cells, table), ','), ',')| == w
    ensures forall k :: 0 <= k < |cells| ==>
      SplitFields(Line(Dense(w, cells, table), ','), ',')[Col(cells[k]) - 1] == Resolve(cells[k], table).GetOr([])
    ensures forall j :: 0 <= j < w && Lookup(cells, j + 1, table).None? ==>
      SplitFields(Line(Dense(w, cells, table), ','), ',')[j] == []
  {
    var d := Dense(w, cells, table);
    var vs := SplitFields(Line(d, ','), ',');
    LineRoundTrip(d, ',');
    LineSeparators(d, ',');
    assert vs == Values(d);
    forall k | 0 <= k < |cells|
      ensures vs[Col(cells[k]) - 1] == Resolve(cells[k], table).GetOr([])
    {
      DenseHit(w, cells, k, table);
    }
    forall j | 0 <= j < w && Lookup(cells, j + 1, table).None?
      ensures vs[j] == []
    {
      assert d[j] == Lookup(cells, j + 1, table);
    }
  }

  /** The context after some rows inside sheetData, opened in s. */
  predicate RowsDone(s: Ctx, t: Ctx) {
    t.depth == 2 && !t.tv && t.numCols == s.numCols && t.shrStr == s.shrStr
  }

  /** One more row of the sheet. */
  lemma RowsRunStep(p: Pass, s: Ctx, rows: seq<Row>)
    requires p != SharedStringsPass && s.numCols >= 1 && |rows| >= 1 && RowsOk(p, rows, s.numCols, s.shrStr)
    requires CanRun(p, s, RowsEvents(rows[..|rows| - 1]))
    requires RowsDone(s, Run(p, s, RowsEvents(rows[..|rows| - 1])))
    ensures CanRun(p, s, RowsEvents(rows))
    ensures var t := Run(p, s, RowsEvents(rows[..|rows| - 1]));
      var u := Run(p, s, RowsEvents(rows));
      RowsDone(s, u) &&
      u.out == t.out + Line(Dense(s.numCols, rows[|rows| - 1].cells, s.shrStr), ',') + "\r\n"
  {
    var init := rows[..|rows| - 1];
    var t := Run(p, s, RowsEvents(init));
    RowLine(p, t, rows[|rows| - 1]);
    RunAppend(p, s, RowsEvents(init), RowEvents(rows[|rows| - 1]));
  }

  /** Rows at the level of sheetData each add their line. */
  lemma {:induction false} RunRows(p: Pass, s: Ctx, rows: seq<Row>)
    requires p != SharedStringsPass && s.depth == 2 && !s.tv && s.numCols >= 1
    requires RowsOk(p, rows, s.numCols, s.shrStr)
    ensures CanRun(p, s, RowsEvents(rows))
    ensures RowsDone(s, Run(p, s, RowsEvents(rows)))
    ensures Run(p, s, RowsEvents(rows)).out == s.out + CsvText(s.numCols, rows, s.shrStr)
    decreases |rows|
  {
    if rows == [] {
      assert s.out + [] == s.out;
    } else {
      var init := rows[..|rows| - 1];
      assert forall i :: 0 <= i < |init| ==> init[i] == rows[i];
      RunRows(p, s, init);
      RowsRunStep(p, s, rows);
      Regroup(s.out, CsvText(s.numCols, init, s.shrStr), Line(Dense(s.numCols, rows[|rows| - 1].cells, s.shrStr), ','), "\r\n");
    }
  }

  // ---- The worksheet ----

  /** The dimension element sets the grid from the upper corner of its
      range; the character data and elements around it change nothing. */
  lemma RunSheetHead(p: Pass, s: Ctx, sh: Sheet)
    requires p != SharedStringsPass && s.depth == 0 && !s.tv
    requires AllInert(sh.head, 1, false) && AllInert(sh.body, 1, false)
    ensures CanRun(p, s, SheetHead(sh))
    ensures Run(p, s, SheetHead(sh))
      == s.(numCols := RangeCoords(sh.dim).0, numRows := RangeCoords(sh.dim).1, depth := 2)
  {
    var s1 := s.(depth := 1);
    assert Step(p, s, Open("worksheet", sh.attrs)) == s1;
    RunNodes(p, s1, sh.head);
    RunDimension(p, s1, sh);
    RunAppend(p, s1, NodesEvents(sh.head), DimensionEvents(sh));
    RunOne(p, s, Open("worksheet", sh.attrs), NodesEvents(sh.head) + DimensionEvents(sh));
  }

  lemma RunDimension(p: Pass, s1: Ctx, sh: Sheet)
    requires p != SharedStringsPass && s1.depth == 1 && !s1.tv && AllInert(sh.body, 1, false)
    ensures CanRun(p, s1, DimensionEvents(sh))
    ensures Run(p, s1, DimensionEvents(sh))
      == s1.(numCols := RangeCoords(sh.dim).0, numRows := RangeCoords(sh.dim).1, depth := 2)
  {
    var s2 := s1.(numCols := RangeCoords(sh.dim).0, numRows := RangeCoords(sh.dim).1, depth := 2);
    var s3 := s2.(depth := 1);
    DimensionOpen(s1, sh.dim);
    assert Step(p, s1, Open("dimension", [Attr("ref", sh.dim)])) == s2;
    assert Step(p, s2, Close("dimension")) == s3;
    var data := [Open("sheetData", [])];
    RunNodes(p, s3, sh.body);
    RunOne(p, s3, Open("sheetData", []), []);
    assert data + [] == data;
    RunAppend(p, s3, NodesEvents(sh.body), data);
    RunOne(p, s2, Close("dimension"), NodesEvents(sh.body) + data);
    RunOne(p, s1, Open("dimension", [Attr("ref", sh.dim)]), [Close("dimension")] + (NodesEvents(sh.body) + data));
  }

  /** The dimension element at depth 1 takes the grid's width and height
      from its ref attribute. */
  lemma DimensionOpen(s: Ctx, dim: string)
    requires s.depth == 1
    ensures SheetOpen(s, "dimension", [Attr("ref", dim)])
      == s.(numCols := RangeCoords(dim).0, numRows := RangeCoords(dim).1, depth := 2)
  {
    var dattrs := [Attr("ref", dim)];
    assert dattrs[..0] == [];
    assert ApplyAttrs(DimensionLoop, s, dattrs)
        == s.(numCols := RangeCoords(dim).0, numRows := RangeCoords(dim).1);
  }

  /** What follows the last row, the end of sheetData, what follows it and
      the end of worksheet write nothing. */
  lemma RunSheetTail(p: Pass, t: Ctx, sh: Sheet)
    requires p != SharedStringsPass && t.depth == 2 && !t.tv
    requires AllInert(sh.dataTail, 2, false) && AllInert(sh.tail, 1, false)
    ensures CanRun(p, t, SheetTail(sh))
    ensures Run(p, t, SheetTail(sh)).out == t.out
  {
    var t1 := t.(depth := 1);
    var rest := [Close("sheetData")] + (NodesEvents(sh.tail) + [Close("worksheet")]);
    RunNodes(p, t, sh.dataTail);
    assert Step(p, t, Close("sheetData")) == t1;
    RunNodes(p, t1, sh.tail);
    RunOne(p, t1, Close("worksheet"), []);
    RunAppend(p, t1, NodesEvents(sh.tail), [Close("worksheet")]);
    RunOne(p, t, Close("sheetData"), NodesEvents(sh.tail) + [Close("worksheet")]);
    RunAppend(p, t, NodesEvents(sh.dataTail), rest);
  }

  /** A worksheet whose dimension gives a grid of numCols >= 1 columns is
      written as one line per row, in document order, each of numCols
      fields. */
  lemma SheetCsv(p: Pass, s: Ctx, sh: Sheet)
    requires p != SharedStringsPass && s.depth == 0 && !s.tv && SheetOk(p, sh, s.shrStr)
    ensures CanRun(p, s, SheetEvents(sh))
    ensures Run(p, s, SheetEvents(sh)).out == s.out + CsvText(Width(sh), sh.rows, s.shrStr)
  {
    RunSheetHead(p, s, sh);
    var h := Run(p, s, SheetHead(sh));
    RunRows(p, h, sh.rows);
    var t := Run(p, h, RowsEvents(sh.rows));
    RunSheetTail(p, t, sh);
    RunAppend(p, h, RowsEvents(sh.rows), SheetTail(sh));
    RunAppend(p, s, SheetHead(sh), RowsEvents(sh.rows) + SheetTail(sh));
  }
}
