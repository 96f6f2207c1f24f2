/** What the Expat callbacks of the converter do to the parse context, as
    functions from the context before an event to the context after it.
    The class in context.dfy is proved to implement these step by step. */
module Dispatch {
  import opened CRuntime
  import opened CellRef
  import opened Csv
  import opened Events

  /** BUFFSIZE: the capture buffer holds at most BuffSize - 1 characters
      and the terminating NUL. */
  const BuffSize: nat := 40960

  /** The fields of XLSXCtx that the Expat build uses, with the output
      stream as the text written to it so far. */
  datatype Ctx = Ctx(
    out: string,                    // everything written to outf
    depth: int,                     // xml_depth
    shrStr: seq<Option<string>>,    // shr_str[0 .. shr_str_cnt), NULL slots as None
    shrStrNum: int,                 // shr_str_num: the entry being filled
    shrStrCnt: int,                 // shr_str_cnt: uniqueCount as read
    numRows: int,                   // sheet_num_rows
    numCols: int,                   // sheet_num_cols: the grid width
    curRow: int,                    // current_row
    curCol: int,                    // current_col
    expCol: int,                    // expected_col
    lookupV: bool,                  // lookup_v != 0
    tv: bool,                       // shr_tv: character data is being captured
    buff: string)                   // shr_buff up to shr_tv_val

  /** The context as calloc leaves it. */
  function Zero(): Ctx {
    Ctx([], 0, [], 0, 0, 0, 0, 0, 0, 0, false, false, [])
  }

  /** calloc(sizeof(char *), n): n NULL slots, none when n is negative
      (the allocation fails and the table is left unusable). */
  function NullTable(n: int): seq<Option<string>> {
    seq(if n > 0 then n else 0, _ => None)
  }

  function Commas(n: nat): string {
    Seps(n, ',')
  }

  /** How many times `for (j = exp; (j < cur) && (j < width); j++)` runs. */
  function Gap(exp: int, cur: int, width: int): nat {
    var stop := if cur < width then cur else width;
    if stop > exp then stop - exp else 0
  }

  /** How many times `for (j = exp; j < width; j++)` runs. */
  function Padding(exp: int, width: int): nat {
    if width > exp then width - exp else 0
  }

  // ---- ChrHndlr ----

  /** The text arrives as bytes, and a captured text must leave room for
      its terminator in shr_buff. */
  predicate CanCharData(s: Ctx, text: string) {
    IsBytes(text) && (s.tv ==> |s.buff| + |text| < BuffSize)
  }

  function CharData(s: Ctx, text: string): Ctx
    requires CanCharData(s, text)
  {
    if s.tv then s.(buff := s.buff + text) else s
  }

  // ---- Attribute loops ----

  /** Which start handler's attribute loop is running. */
  datatype AttrLoop = SstLoop | DimensionLoop | RowLoop | CellLoop

  /** One turn of an attribute loop. */
  function ApplyAttr(h: AttrLoop, s: Ctx, a: Attr): Ctx {
    match h
    case SstLoop =>
      if a.name == "uniqueCount" then
        var n := Atoi(a.value);
        s.(shrStrCnt := n, shrStr := NullTable(n))
      else s
    case DimensionLoop =>
      if a.name == "ref" then
        var cr := RangeCoords(a.value);
        s.(numCols := cr.0, numRows := cr.1)
      else s
    case RowLoop =>
      if a.name == "r" then s.(expCol := 1) else s
    case CellLoop =>
      if a.name == "r" then PlaceCell(s, a.value)
      else if a.name == "t" then
        if |a.value| > 0 && a.value[0] == 's' then s.(lookupV := true) else s
      else s
  }

  /** The r attribute of a c element: the cell's coordinates, the commas of
      the columns it skips within the grid, and the column expected next. */
  function PlaceCell(s: Ctx, ref: string): Ctx {
    var cr := CellCoords(ref);
    s.(curCol := cr.0, curRow := cr.1,
       out := s.out + Commas(Gap(s.expCol, cr.0, s.numCols)),
       expCol := cr.0 + 1)
  }

  /** The whole attribute loop, in attribute order. */
  function ApplyAttrs(h: AttrLoop, s: Ctx, attrs: seq<Attr>): (r: Ctx)
    ensures r.depth == s.depth && r.tv == s.tv && r.buff == s.buff
    ensures h != CellLoop ==> r.out == s.out
    decreases |attrs|
  {
    if attrs == [] then s
    else ApplyAttr(h, ApplyAttrs(h, s, attrs[..|attrs| - 1]), attrs[|attrs| - 1])
  }

  /** The attribute loop may be run in two parts. */
  lemma {:induction false} ApplyAttrsAppend(h: AttrLoop, s: Ctx, a: seq<Attr>, b: seq<Attr>)
    ensures ApplyAttrs(h, s, a + b) == ApplyAttrs(h, ApplyAttrs(h, s, a), b)
    decreases |b|
  {
    if b == [] {
      assert a + b == a;
    } else {
      var init := b[..|b| - 1];
      assert (a + b)[..|a + b| - 1] == a + init;
      assert (a + b)[|a + b| - 1] == b[|b| - 1];
      ApplyAttrsAppend(h, s, a, init);
    }
  }

  // ---- Shared strings pass: StartSharedStrings, EndSharedStrings ----

  function SharedOpen(s: Ctx, el: string, attrs: seq<Attr>): Ctx {
    var s1 :=
      if s.depth == 0 && el == "sst" then ApplyAttrs(SstLoop, s, attrs)
      else if (s.depth == 2 || s.depth == 3) && el == "t" then s.(tv := true, buff := [])
      else s;
    s1.(depth := s.depth + 1)
  }

  /** A closing text run is stored in slot shr_str_num, which must exist. */
  predicate CanSharedClose(s: Ctx, el: string) {
    var d := s.depth - 1;
    ((d == 2 || d == 3) && el == "t") ==> 0 <= s.shrStrNum < |s.shrStr|
  }

  function SharedClose(s: Ctx, el: string): Ctx
    requires CanSharedClose(s, el)
  {
    var d := s.depth - 1;
    if (d == 2 || d == 3) && el == "t" then
      var n := s.shrStrNum;
      s.(depth := d, tv := false, shrStr := s.shrStr[n := Some(s.shrStr[n].GetOr([]) + s.buff)])
    else if d == 1 && el == "si" then
      s.(depth := d, shrStrNum := s.shrStrNum + 1)
    else
      s.(depth := d)
  }

  // ---- Worksheet pass: StartSheet, EndSheet ----

  function SheetOpen(s: Ctx, el: string, attrs: seq<Attr>): Ctx {
    var s1 :=
      if s.depth == 1 && el == "dimension" then ApplyAttrs(DimensionLoop, s, attrs)
      else if s.depth == 2 && el == "row" then ApplyAttrs(RowLoop, s, attrs)
      else if s.depth == 3 && el == "c" then ApplyAttrs(CellLoop, s.(lookupV := false), attrs)
      else if s.depth == 4 && el == "v" then s.(tv := true, buff := [])
      else s;
    s1.(depth := s.depth + 1)
  }

  /** A shared-string value must index an existing slot of shr_str. */
  predicate CanSheetClose(s: Ctx, el: string) {
    (s.depth - 1 == 4 && el == "v" && s.lookupV) ==> 0 <= Atoi(s.buff) < |s.shrStr|
  }

  /** The value a closing v writes: shr_str[atoi(shr_buff)] for a
      shared-string cell, the captured text otherwise. */
  function CellValue(s: Ctx): Option<string>
    requires s.lookupV ==> 0 <= Atoi(s.buff) < |s.shrStr|
  {
    if s.lookupV then s.shrStr[Atoi(s.buff)] else Some(s.buff)
  }

  function SheetClose(s: Ctx, el: string): Ctx
    requires CanSheetClose(s, el)
  {
    var d := s.depth - 1;
    if d == 4 && el == "v" then
      s.(depth := d, tv := false, out := s.out + CsvTerm(CellValue(s), ',', s.curCol < s.numCols))
    else if d == 2 && el == "row" then
      s.(depth := d, out := s.out + Commas(Padding(s.expCol, s.numCols)) + "\r\n")
    else
      s.(depth := d)
  }

  // ---- The worksheet pass with blank cells counted ----

  /** StartSheet with an r attribute that expects the cell's own column
      until its value has been written, so that a c element without v
      leaves its column to be written as an empty field. */
  function FixedSheetOpen(s: Ctx, el: string, attrs: seq<Attr>): Ctx {
    var t := SheetOpen(s, el, attrs);
    if s.depth == 3 && el == "c" && Named(attrs, "r") then t.(expCol := t.curCol) else t
  }

  /** EndSheet with a closing v that moves the expected column past the
      cell it has written. */
  function FixedSheetClose(s: Ctx, el: string): Ctx
    requires CanSheetClose(s, el)
  {
    var t := SheetClose(s, el);
    if s.depth - 1 == 4 && el == "v" then t.(expCol := s.curCol + 1) else t
  }

  // ---- Running a document through one callback set ----

  /** The callback set installed for a pass: the two of main, and the
      worksheet handlers with blank cells counted, which main does not
      install. */
  datatype Pass = SharedStringsPass | SheetPass | FixedSheetPass

  predicate CanStep(p: Pass, s: Ctx, e: Event) {
    match e
    case Open(_, _) => true
    case Close(el) => if p == SharedStringsPass then CanSharedClose(s, el) else CanSheetClose(s, el)
    case Text(t) => CanCharData(s, t)
  }

  function Step(p: Pass, s: Ctx, e: Event): Ctx
    requires CanStep(p, s, e)
  {
    match e
    case Open(el, attrs) =>
      (match p
       case SharedStringsPass => SharedOpen(s, el, attrs)
       case SheetPass => SheetOpen(s, el, attrs)
       case FixedSheetPass => FixedSheetOpen(s, el, attrs))
    case Close(el) =>
      (match p
       case SharedStringsPass => SharedClose(s, el)
       case SheetPass => SheetClose(s, el)
       case FixedSheetPass => FixedSheetClose(s, el))
    case Text(t) => CharData(s, t)
  }

  /** Every event of evs finds the context in a state its callback accepts. */
  predicate CanRun(p: Pass, s: Ctx, evs: seq<Event>)
    decreases |evs|
  {
    evs == [] || (CanStep(p, s, evs[0]) && CanRun(p, Step(p, s, evs[0]), evs[1..]))
  }

  function Run(p: Pass, s: Ctx, evs: seq<Event>): Ctx
    requires CanRun(p, s, evs)
    decreases |evs|
  {
    if evs == [] then s else Run(p, Step(p, s, evs[0]), evs[1..])
  }

  /** A document may be run in two parts. */
  lemma {:induction false} RunAppend(p: Pass, s: Ctx, a: seq<Event>, b: seq<Event>)
    ensures CanRun(p, s, a + b) <==> CanRun(p, s, a) && CanRun(p, Run(p, s, a), b)
    ensures CanRun(p, s, a + b) ==> Run(p, s, a + b) == Run(p, Run(p, s, a), b)
    decreases |a|
  {
    if a == [] {
      assert a + b == b;
    } else {
      assert (a + b)[0] == a[0];
      assert (a + b)[1..] == a[1..] + b;
      if CanStep(p, s, a[0]) {
        RunAppend(p, Step(p, s, a[0]), a[1..], b);
      }
    }
  }

  /** A document may be run event by event. */
  lemma RunOne(p: Pass, s: Ctx, e: Event, rest: seq<Event>)
    requires CanStep(p, s, e)
    ensures CanRun(p, s, [e] + rest) <==> CanRun(p, Step(p, s, e), rest)
    ensures CanRun(p, s, [e] + rest) ==> Run(p, s, [e] + rest) == Run(p, Step(p, s, e), rest)
  {
    assert ([e] + rest)[0] == e;
    assert ([e] + rest)[1..] == rest;
  }

  /** Character data delivered in pieces is captured whole, in order. */
  lemma {:induction false} RunTexts(p: Pass, s: Ctx, frags: seq<string>)
    requires s.tv && AllBytes(frags) && |s.buff| + |Concat(frags)| < BuffSize
    ensures CanRun(p, s, Texts(frags))
    ensures Run(p, s, Texts(frags)) == s.(buff := s.buff + Concat(frags))
    decreases |frags|
  {
    if frags == [] {
      assert s.buff + [] == s.buff;
    } else {
      var init := frags[..|frags| - 1];
      var last := frags[|frags| - 1];
      assert forall i :: 0 <= i < |init| ==> init[i] == frags[i];
      RunTexts(p, s, init);
      var m := s.(buff := s.buff + Concat(init));
      RunOne(p, m, Text(last), []);
      RunAppend(p, s, Texts(init), [Text(last)]);
      assert s.buff + Concat(init) + last == s.buff + Concat(frags);
    }
  }

  /** Character data outside a capture changes nothing. */
  lemma {:induction false} RunTextsIgnored(p: Pass, s: Ctx, frags: seq<string>)
    requires !s.tv && AllBytes(frags)
    ensures CanRun(p, s, Texts(frags)) && Run(p, s, Texts(frags)) == s
    decreases |frags|
  {
    if frags != [] {
      var init := frags[..|frags| - 1];
      var last := frags[|frags| - 1];
      assert forall i :: 0 <= i < |init| ==> init[i] == frags[i];
      RunTextsIgnored(p, s, init);
      RunOne(p, s, Text(last), []);
      RunAppend(p, s, Texts(init), [Text(last)]);
    }
  }

  // ---- The two passes of main ----

  /** The context after the shared-strings pass, when the package has a
      shared-strings document. */
  function AfterSharedStrings(shared: Option<seq<Event>>): Ctx
    requires shared.Some? ==> CanRun(SharedStringsPass, Zero(), shared.value)
  {
    match shared
    case None => Zero()
    case Some(evs) => Run(SharedStringsPass, Zero(), evs)
  }

  /** main resets the depth and the capture flag before the worksheet pass. */
  function SheetStart(shared: Option<seq<Event>>): Ctx
    requires shared.Some? ==> CanRun(SharedStringsPass, Zero(), shared.value)
  {
    AfterSharedStrings(shared).(depth := 0, tv := false)
  }

  predicate CanConvert(shared: Option<seq<Event>>, sheet: Option<seq<Event>>) {
    (shared.Some? ==> CanRun(SharedStringsPass, Zero(), shared.value)) &&
    (sheet.Some? ==> CanRun(SheetPass, SheetStart(shared), sheet.value))
  }

  /** The CSV text of a conversion, or None when the worksheet document is
      missing (main reports it and exits). */
  function Convert(shared: Option<seq<Event>>, sheet: Option<seq<Event>>): Option<string>
    requires CanConvert(shared, sheet)
  {
    match sheet
    case None => None
    case Some(evs) => Some(Run(SheetPass, SheetStart(shared), evs).out)
  }
}
