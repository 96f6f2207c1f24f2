/** The whole conversion: the shared strings are loaded first, then the
    worksheet is streamed to CSV with its shared-string cells resolved
    against that table. */
module Conversion {
  import opened CRuntime
  import opened CellRef
  import opened Events
  import opened Dispatch
  import opened SharedProps
  import opened SheetProps

  /** A workbook whose shared-strings document declares n slots and holds
      at most n entries, and whose worksheet has a dimension of at least one
      column and rows of increasing cells with values inside it, converts to
      one CSV line per row in which each cell's field, shared or inline,
      stands in its own column. */
  lemma WorkbookCsv(d: Sst, sh: Sheet)
    requires SstOk(d) && SheetOk(SheetPass, sh, Table(d.count, d.entries))
    ensures CanConvert(Some(SstEvents(d)), Some(SheetEvents(sh)))
    ensures Convert(Some(SstEvents(d)), Some(SheetEvents(sh)))
         == Some(CsvText(Width(sh), sh.rows, Table(d.count, d.entries)))
  {
    var table := Table(d.count, d.entries);
    SharedStringsTable(d);
    var start := SheetStart(Some(SstEvents(d)));
    SheetCsv(SheetPass, start, sh);
    assert [] + CsvText(Width(sh), sh.rows, table) == CsvText(Width(sh), sh.rows, table);
  }

  /** A workbook without a shared-strings document converts the same way
      when none of its cells is a shared-string cell. */
  lemma WorkbookWithoutSharedStrings(sh: Sheet)
    requires SheetOk(SheetPass, sh, [])
    ensures CanConvert(None, Some(SheetEvents(sh)))
    ensures Convert(None, Some(SheetEvents(sh))) == Some(CsvText(Width(sh), sh.rows, []))
  {
    var start := SheetStart(None);
    SheetCsv(SheetPass, start, sh);
    assert [] + CsvText(Width(sh), sh.rows, []) == CsvText(Width(sh), sh.rows, []);
  }
}
