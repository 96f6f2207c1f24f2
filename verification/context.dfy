/** XLSXCtx and the Expat callbacks that update it in place. */
module Context {
  import opened CRuntime
  import opened CellRef
  import opened Csv
  import opened Events
  import opened Dispatch

  class XlsxCtx {
    var out: string              // the text written to outf
    var xmlDepth: int
    var shrStr: seq<Option<string>>
    var shrStrNum: int
    var shrStrCnt: int
    var sheetNumRows: int
    var sheetNumCols: int
    var currentRow: int
    var currentCol: int
    var expectedCol: int
    var lookupV: bool
    var shrTv: bool
    var shrTvVal: nat            // where shr_tv_val points in shr_buff
    const shrBuff: array<char>

    ghost predicate Valid()
      reads this
    {
      shrBuff.Length == BuffSize && shrTvVal < BuffSize
    }

    /** The context as the specification functions see it. */
    ghost function State(): Ctx
      reads this, shrBuff
      requires Valid()
    {
      Ctx(out, xmlDepth, shrStr, shrStrNum, shrStrCnt, sheetNumRows, sheetNumCols,
          currentRow, currentCol, expectedCol, lookupV, shrTv, shrBuff[..shrTvVal])
    }

    /** calloc(1, sizeof(XLSXCtx)) */
    constructor ()
      ensures Valid() && fresh(shrBuff)
      ensures State() == Zero()
    {
      out, xmlDepth, shrStr, shrStrNum, shrStrCnt := [], 0, [], 0, 0;
      sheetNumRows, sheetNumCols, currentRow, currentCol, expectedCol := 0, 0, 0, 0, 0;
      lookupV, shrTv, shrTvVal := false, false, 0;
      shrBuff := new char[BuffSize](_ => '\0');
    }

    /** Starts capturing character data at the beginning of shr_buff. */
    method StartCapture()
      requires Valid()
      modifies this`shrTv, this`shrTvVal, shrBuff
      ensures Valid() && State() == old(State()).(tv := true, buff := [])
    {
      shrTv := true;
      shrTvVal := 0;
      shrBuff[shrTvVal] := '\0';
    }

    /** ChrHndlr: copies the characters after shr_tv_val while capturing. */
    method ChrHndlr(s: string)
      requires Valid() && CanCharData(State(), s)
      modifies this`shrTvVal, shrBuff
      ensures Valid() && State() == CharData(old(State()), s)
    {
      if shrTv {
        var k := 0;
        while k < |s|
          invariant 0 <= k <= |s| && shrTvVal == old(shrTvVal) + k
          invariant shrBuff[..shrTvVal] == old(shrBuff[..shrTvVal]) + s[..k]
        {
          shrBuff[shrTvVal] := s[k];
          shrTvVal := shrTvVal + 1;
          k := k + 1;
        }
        shrBuff[shrTvVal] := '\0';
        assert s[..k] == s;
      }
    }

    /** output_csv(outf, sep, z, bSep) */
    method OutputCsv(z: Option<string>, sep: char, bSep: bool)
      modifies this`out
      ensures out == old(out) + CsvTerm(z, sep, bSep)
    {
      if z.Some? {
        var quote := NeedsQuoting(z.value, sep);
        HasFlaggedIff(z.value, sep);
        if quote {
          PutQuoted(z.value);
        } else {
          out := out + z.value;
        }
      }
      assert out == old(out) + Field(z, sep);
      if bSep {
        out := out + [sep];
      }
    }

    /** The quoting branch of output_csv: an opening quote, every character
        with '"' doubled, a closing quote. */
    method PutQuoted(v: string)
      modifies this`out
      ensures out == old(out) + "\"" + Escape(v) + "\""
    {
      out := out + "\"";
      var i := 0;
      while i < |v|
        invariant 0 <= i <= |v|
        invariant out == old(out) + "\"" + Escape(v[..i])
      {
        EscapeStep(v, i);
        ghost var done := old(out) + "\"" + Escape(v[..i]);
        if v[i] == '"' {
          out := out + ['"'];
        }
        out := out + [v[i]];
        Regroup3(done, if v[i] == '"' then ['"'] else [], [v[i]]);
        i := i + 1;
      }
      assert v[..i] == v;
      out := out + "\"";
    }

    method StartSharedStrings(el: string, attrs: seq<Attr>)
      requires Valid()
      modifies this, shrBuff
      ensures Valid() && State() == SharedOpen(old(State()), el, attrs)
    {
      if xmlDepth == 0 && el == "sst" {
        SstAttrLoop(attrs);
      } else if (xmlDepth == 2 || xmlDepth == 3) && el == "t" {
        StartCapture();
      }
      xmlDepth := xmlDepth + 1;
    }

    /** The attribute loop of the sst element: uniqueCount sizes the table
        of NULL entries. */
    method SstAttrLoop(attrs: seq<Attr>)
      requires Valid()
      modifies this
      ensures Valid() && State() == ApplyAttrs(SstLoop, old(State()), attrs)
    {
      var i := 0;
      while i < |attrs|
        invariant 0 <= i <= |attrs| && Valid()
        invariant State() == ApplyAttrs(SstLoop, old(State()), attrs[..i])
      {
        assert attrs[..i + 1][..i] == attrs[..i];
        if attrs[i].name == "uniqueCount" {
          shrStrCnt := Atoi(attrs[i].value);
          shrStr := NullTable(shrStrCnt);
        }
        i := i + 1;
      }
      assert attrs[..i] == attrs;
    }

    method EndSharedStrings(el: string)
      requires Valid() && CanSharedClose(State(), el)
      modifies this
      ensures Valid() && State() == SharedClose(old(State()), el)
    {
      xmlDepth := xmlDepth - 1;
      if (xmlDepth == 2 || xmlDepth == 3) && el == "t" {
        shrTv := false;
        var run := shrBuff[..shrTvVal];
        match shrStr[shrStrNum]
        case Some(prev) =>
          // the concatenation as intended; see Findings for the code as written
          shrStr := shrStr[shrStrNum := Some(prev + run)];
        case None =>
          assert [] + run == run;
          shrStr := shrStr[shrStrNum := Some(run)];
      } else if xmlDepth == 1 && el == "si" {
        shrStrNum := shrStrNum + 1;
      }
    }

    method StartSheet(el: string, attrs: seq<Attr>)
      requires Valid()
      modifies this, shrBuff
      ensures Valid() && State() == SheetOpen(old(State()), el, attrs)
    {
      if xmlDepth == 1 && el == "dimension" {
        DimensionAttrLoop(attrs);
      } else if xmlDepth == 2 && el == "row" {
        RowAttrLoop(attrs);
      } else if xmlDepth == 3 && el == "c" {
        lookupV := false;
        CellAttrLoop(attrs);
      } else if xmlDepth == 4 && el == "v" {
        StartCapture();
      }
      xmlDepth := xmlDepth + 1;
    }

    /** The attribute loop of a dimension element: ref gives the grid extent. */
    method DimensionAttrLoop(attrs: seq<Attr>)
      requires Valid()
      modifies this
      ensures Valid() && State() == ApplyAttrs(DimensionLoop, old(State()), attrs)
    {
      var i := 0;
      while i < |attrs|
        invariant 0 <= i <= |attrs| && Valid()
        invariant State() == ApplyAttrs(DimensionLoop, old(State()), attrs[..i])
      {
        assert attrs[..i + 1][..i] == attrs[..i];
        if attrs[i].name == "ref" {
          sheetNumCols, sheetNumRows := RangeColRow(attrs[i].value);
        }
        i := i + 1;
      }
      assert attrs[..i] == attrs;
    }

    /** The attribute loop of a row element: an r attribute restarts the
        expected column at 1. */
    method RowAttrLoop(attrs: seq<Attr>)
      requires Valid()
      modifies this
      ensures Valid() && State() == ApplyAttrs(RowLoop, old(State()), attrs)
    {
      var i := 0;
      while i < |attrs|
        invariant 0 <= i <= |attrs| && Valid()
        invariant State() == ApplyAttrs(RowLoop, old(State()), attrs[..i])
      {
        assert attrs[..i + 1][..i] == attrs[..i];
        if attrs[i].name == "r" {
          expectedCol := 1;
        }
        i := i + 1;
      }
      assert attrs[..i] == attrs;
    }

    /** The attribute loop of a c element: r places the cell and writes the
        commas of the skipped columns, a t value starting with 's' marks a
        shared-string lookup. */
    method CellAttrLoop(attrs: seq<Attr>)
      requires Valid()
      modifies this
      ensures Valid() && State() == ApplyAttrs(CellLoop, old(State()), attrs)
    {
      var i := 0;
      while i < |attrs|
        invariant 0 <= i <= |attrs| && Valid()
        invariant State() == ApplyAttrs(CellLoop, old(State()), attrs[..i])
      {
        assert attrs[..i + 1][..i] == attrs[..i];
        CellAttr(attrs[i]);
        i := i + 1;
      }
      assert attrs[..i] == attrs;
    }

    /** One turn of the attribute loop of a c element. */
    method CellAttr(a: Attr)
      requires Valid()
      modifies this
      ensures Valid() && State() == ApplyAttr(CellLoop, old(State()), a)
    {
      if a.name == "r" {
        CellRefAttr(a.value);
      } else if a.name == "t" {
        if |a.value| > 0 && a.value[0] == 's' {
          lookupV := true;
        }
      }
    }

    /** The r attribute of a c element: the cell's coordinates, the commas
        of the columns it skips, and the column expected next. */
    method CellRefAttr(v: string)
      requires Valid()
      modifies this
      ensures Valid()
      ensures State() == PlaceCell(old(State()), v)
    {
      var col, row := ExcelColRow(v);
      currentCol, currentRow := col, row;
      PutGapCommas();
      expectedCol := col + 1;
    }

    /** The comma loop of a cell that skips columns: one comma for every
        column from expected_col up to the cell's, within the grid. */
    method PutGapCommas()
      modifies this`out
      ensures out == old(out) + Commas(Gap(expectedCol, currentCol, sheetNumCols))
    {
      var j := expectedCol;
      while j < currentCol && j < sheetNumCols
        invariant expectedCol <= j
        invariant out == old(out) + Commas(j - expectedCol)
        invariant j - expectedCol <= Gap(expectedCol, currentCol, sheetNumCols)
      {
        out := out + [','];
        j := j + 1;
      }
    }

    method EndSheet(el: string)
      requires Valid() && CanSheetClose(State(), el)
      modifies this
      ensures Valid() && State() == SheetClose(old(State()), el)
    {
      xmlDepth := xmlDepth - 1;
      if xmlDepth == 4 && el == "v" {
        shrTv := false;
        var value := shrBuff[..shrTvVal];
        if lookupV {
          OutputCsv(shrStr[Atoi(value)], ',', currentCol < sheetNumCols);
        } else {
          OutputCsv(Some(value), ',', currentCol < sheetNumCols);
        }
      } else if xmlDepth == 2 && el == "row" {
        PutPadding();
        out := out + "\r\n";
      }
    }

    /** The comma loop at the end of a row: one comma for every column
        from expected_col to the end of the grid. */
    method PutPadding()
      modifies this`out
      ensures out == old(out) + Commas(Padding(expectedCol, sheetNumCols))
    {
      var j := expectedCol;
      while j < sheetNumCols
        invariant expectedCol <= j
        invariant j <= sheetNumCols || j == expectedCol
        invariant out == old(out) + Commas(j - expectedCol)
      {
        out := out + [','];
        j := j + 1;
      }
    }

    /** XML_Parse with this pass's callbacks installed: every event of the
        document, in order, goes to its handler. */
    method Parse(p: Pass, evs: seq<Event>)
      requires p != FixedSheetPass && Valid() && CanRun(p, State(), evs)
      modifies this, shrBuff
      ensures Valid() && State() == Run(p, old(State()), evs)
    {
      var i := 0;
      while i < |evs|
        invariant 0 <= i <= |evs| && Valid()
        invariant CanRun(p, State(), evs[i..])
        invariant Run(p, State(), evs[i..]) == Run(p, old(State()), evs)
      {
        assert evs[i..][1..] == evs[i + 1..];
        match evs[i] {
          case Open(el, attrs) =>
            if p == SharedStringsPass {
              StartSharedStrings(el, attrs);
            } else {
              StartSheet(el, attrs);
            }
          case Close(el) =>
            if p == SharedStringsPass {
              EndSharedStrings(el);
            } else {
              EndSheet(el);
            }
          case Text(t) =>
            ChrHndlr(t);
        }
        i := i + 1;
      }
    }
  }

  /** The conversion part of main: load the shared strings when the package
      has them, reset depth and capture, then stream the worksheet to the
      output; a missing worksheet gives None. */
  method ConvertSheet(shared: Option<seq<Event>>, sheet: Option<seq<Event>>) returns (csv: Option<string>)
    requires CanConvert(shared, sheet)
    ensures csv == Convert(shared, sheet)
  {
    var ctx := new XlsxCtx();
    if shared.Some? {
      ctx.xmlDepth := 0;
      ctx.Parse(SharedStringsPass, shared.value);
    }
    if sheet.None? {
      return None;
    }
    ctx.xmlDepth := 0;
    ctx.shrTv := false;
    ctx.Parse(SheetPass, sheet.value);
    csv := Some(ctx.out);
  }
}
