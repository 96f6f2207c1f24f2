# cxlsx_to_csv: the Expat worksheet-to-CSV engine in Dafny

`cxlsx_to_csv` turns one worksheet of an XLSX package into CSV. It does this
in two streaming passes over XML documents taken from the package, and both
passes share one parse context, `XLSXCtx`:

- **The shared-strings pass.** Expat feeds `xl/sharedStrings.xml` to
  `StartSharedStrings`, `EndSharedStrings` and `ChrHndlr`. These handlers
  size the shared-string table from `uniqueCount`. Every `t` text run of an
  `si` entry is appended to the entry's slot, and the slot index advances
  when the `si` closes.
- **The worksheet pass.** Expat feeds `xl/worksheets/sheetN.xml` to
  `StartSheet`, `EndSheet` and `ChrHndlr`. These handlers are keyed on the
  element depth:
  - `dimension` gives the grid width;
  - `row` restarts the expected column;
  - `c` writes one comma for every column it skips, decodes its reference
    such as `C3`, and notes whether its value is a shared-string index;
  - `v` captures its text and, when it closes, writes the CSV field;
  - closing a `row` pads the line to the grid width and ends it with CRLF.

  Every other element only moves the depth counter down and back up, and
  character data outside `v` is dropped.

The model has these parts:

- **Events.** The events of an XML document are a datatype:
  `Open(name, attrs)`, `Close(name)` and `Text(chars)`.
- **Output.** What `putc` and `fprintf` write becomes a `string` that grows.
- **Context.** `XLSXCtx` is the class `Context.XlsxCtx`. Its fields are
  updated in place, and its capture buffer `shr_buff` is an
  `array<char>` of `BUFFSIZE` characters.
- **Handlers and their specification.** Each Expat callback is a method of
  that class. Each method is proved against a pure transition function in
  `Dispatch`, which maps the context before an event to the context after
  it. `Dispatch.Run` folds a whole document through one callback set.
- **Documents.** A document is built from its elements. What a callback
  set passes over (`Elements.Node`) is either a run of character data, such
  as the line breaks and indentation of a pretty-printed document, or an
  element tree of any shape with any attributes. Such parts may stand
  between and around the elements the handlers act on.
- **A corrected worksheet pass.** `Dispatch.FixedSheetPass` is a third
  callback set, which `main` does not install. It writes an empty field for
  a cell without a value (see "Findings").
- **The properties.** The theorems are proved about those functions:
  - the cell-reference decoder and its inverse;
  - the CSV quoting round trip;
  - the contents of the shared-string table after the first pass;
  - the exact CSV text of a worksheet after the second pass: one line per
    row, with exactly W−1 separators outside quotes for a grid W columns
    wide, and every cell's value in its own column.

Files:

| file | contents |
|---|---|
| `c_runtime.dfy` | `Option`, the `<ctype.h>` predicates used, `atoi`, decimal strings |
| `cell_ref.dfy` | `excelcolrow`, `rangecolrow`, and column names as their inverse |
| `csv.dfy` | `needCsvQuote` and `output_csv`, a CSV line reader, and the round trip and separator count |
| `events.dfy` | the event datatype |
| `elements.dfy` | character data and elements a callback set passes over, and the proof that they leave the context unchanged |
| `dispatch.dfy` | the parse context as a value and the handlers as transition functions; the two passes of `main` |
| `context.dfy` | the `XlsxCtx` class, whose handler methods update it in place; the conversion part of `main` as a method |
| `shared_props.dfy` | what the shared-strings pass builds |
| `sheet_props.dfy` | what the worksheet pass writes |
| `conversion.dfy` | the two passes together |
| `findings.dfy` | the terminator store in `EndSharedStrings`, as written and as intended |
| `blank_cells.dfy` | a cell without a value under `main`'s handlers and under the corrected ones |

Where the code and its documentation disagree, the model follows the code:

- `output_csv` quotes the empty string, because its scan loop ends with
  `i == 0`, so an empty `v` writes `""`. A NULL field writes nothing.
- `needCsvQuote` flags bytes 0–32, `"`, `'`, 127 and everything above 127,
  and the separator is also a reason to quote. So a plain word such as
  `Col1` is written without quotes, and a space or an apostrophe forces
  quotes.
- The comma loop of a cell runs `max(0, min(current_col, W) − expected_col)`
  times, where W is the grid width. A cell beyond the declared width
  therefore gets no extra gap commas.
- A `row` restarts `expected_col` at 1 only when it carries an attribute
  named exactly `r`. Otherwise `expected_col` keeps its value from the
  previous row (`SheetProps.RowOpen`).
- The depths are those of the code: `dimension` opens at depth 1, `row` at
  2, `c` at 3 and `v` at 4. In the shared strings, `t` opens at depth 2,
  or at depth 3 inside any wrapper, which includes phonetic `rPh` runs as
  well as rich-text `r` runs.
- Any `t` attribute whose value starts with `s`, which includes `t="str"`,
  makes the value a table lookup.
- A negative `uniqueCount` gives an empty table.
- When the package has no shared-strings document, the table stays NULL.
  A shared-string cell would then dereference NULL. In the model that is a
  state no step may reach (`Dispatch.CanSheetClose`), just like an index
  beyond the table.

## Model

| member | source | states |
|---|---|---|
| CRuntime.AtoiDecimalString | cxlsx_to_csv.c:311 | `atoi` of a decimal numeral followed by a non-digit gives back the number |
| CellRef.ExcelColRow | cxlsx_to_csv.c:297-313 | the loop computes the column as bijective base 26 over the leading letters, ignoring case, and the row as `atoi` of the rest (`CellCoords`) |
| CellRef.CellRefRoundTrip | cxlsx_to_csv.c:297-313 | for every column ≥ 1 and every row, decoding the column's name followed by the row's numeral gives back (column, row) |
| CellRef.ColumnNumberOfName | cxlsx_to_csv.c:303-306 | the column letters of n decode to n |
| CellRef.ColumnNameOfNumber | cxlsx_to_csv.c:303-306 | every upper-case letter string is the name of the column it decodes to, so the decoding is a bijection |
| CellRef.ColumnNumberIgnoresCase | cxlsx_to_csv.c:305 | letter strings that agree up to case decode to the same column |
| CellRef.NoLetterNoColumn | cxlsx_to_csv.c:301-311 | a reference that does not start with a letter gives column 0 and the `atoi` of the whole string as the row |
| CellRef.LettersOnly | cxlsx_to_csv.c:303-311 | a reference made only of letters gives its column and row 0 |
| CellRef.SingleLetterExamples | cxlsx_to_csv.c:303-306 | "A" is column 1 and "Z" is column 26 |
| CellRef.DoubleLetterExamples | cxlsx_to_csv.c:303-306 | "AA" is 27, "AZ" is 52 and "BA" is 53 |
| CellRef.CellExamples | cxlsx_to_csv.c:297-313 | "C3" and "c3" both decode to (3, 3) |
| CellRef.LastColumnExample | cxlsx_to_csv.c:297-313 | "XFD1" decodes to (16384, 1) |
| CellRef.RangeColRow | cxlsx_to_csv.c:315-328 | the result is the decoding of the part after the first colon, or of the whole string when there is none (`RangeCoords`) |
| CellRef.RangeUsesUpperCorner | cxlsx_to_csv.c:320-325 | for a range `a:b` whose first part has no colon, only `b` is decoded |
| CellRef.RangeWithoutColon | cxlsx_to_csv.c:320-325 | without a colon, the range decodes like a cell reference |
| CellRef.RangeExample | cxlsx_to_csv.c:315-328 | "A1:C3" gives (3, 3) |
| Csv.NeedsQuoting | cxlsx_to_csv.c:273-280 | the scan asks for quotes exactly when the field is empty or has a byte flagged in `needCsvQuote` or equal to the separator |
| Csv.HasFlaggedIff | cxlsx_to_csv.c:243-260 | a field has a flagged byte exactly when some position holds a control byte, space, `"`, `'`, DEL, a byte above 127 or the separator |
| Csv.VerbatimIff | cxlsx_to_csv.c:280-290 | a field is written verbatim exactly when it is non-empty and has no flagged byte |
| Csv.EscapeAppend | cxlsx_to_csv.c:282-286 | quote doubling distributes over concatenation |
| Csv.EscapeStep | cxlsx_to_csv.c:282-286 | escaping one more character appends that character, doubled when it is `"` |
| Csv.FieldRoundTrip | cxlsx_to_csv.c:268-291 | reading back a written field, followed by a separator or the end of the line, recovers the field (NULL reads back as empty) and leaves the rest |
| Csv.LineRoundTrip | cxlsx_to_csv.c:268-295 | splitting a written line at the separators outside quotes and undoubling the quotes gives back every field in order |
| Csv.OutputCsvSeparators | cxlsx_to_csv.c:292-294 | one written term holds exactly one separator outside quotes when `bSep` is set and none otherwise, and it closes every quote it opens |
| Csv.LineSeparators | cxlsx_to_csv.c:268-295 | a line of n fields holds exactly n − 1 separators outside quotes |
| Csv.FieldHasNoSeparator | cxlsx_to_csv.c:273-290 | a written field contributes no separator outside quotes, whatever its contents |
| Csv.QuotingExample | cxlsx_to_csv.c:280-287 | `He said "hi", bye` is written as `"He said ""hi"", bye"` |
| Csv.EscapeWithoutQuotes | cxlsx_to_csv.c:282-286 | a field without `"` is copied unchanged between the quotes |
| Context.XlsxCtx.constructor | cxlsx_to_csv.c:763 | `calloc` gives the all-zero context |
| Context.XlsxCtx.ChrHndlr | cxlsx_to_csv.c:380-393 | while capturing, the characters are appended to the buffer after what it already holds; otherwise nothing changes |
| Context.XlsxCtx.StartCapture | cxlsx_to_csv.c:345-348 | opening a capturing element sets the flag and empties the buffer |
| Context.XlsxCtx.OutputCsv | cxlsx_to_csv.c:268-295 | appends exactly the CSV term of the field and, when `bSep` is set, the separator |
| Context.XlsxCtx.PutQuoted | cxlsx_to_csv.c:281-287 | writes the field between quotes with every `"` doubled |
| Context.XlsxCtx.StartSharedStrings | cxlsx_to_csv.c:331-351 | the new state is `SharedOpen` of the old one: `sst` at depth 0 sizes the NULL table from `uniqueCount`, `t` at depth 2 or 3 starts a capture, and the depth goes up |
| Context.XlsxCtx.SstAttrLoop | cxlsx_to_csv.c:337-343 | every `uniqueCount` attribute, in order, sets the count and a fresh table of that many NULL slots |
| Context.XlsxCtx.EndSharedStrings | cxlsx_to_csv.c:353-377 | the new state is `SharedClose` of the old one: a closing `t` stores the capture in the current slot, or appends it to the slot's text, and a closing `si` at depth 1 moves to the next slot |
| Context.XlsxCtx.StartSheet | cxlsx_to_csv.c:395-443 | the new state is `SheetOpen` of the old one, for `dimension`, `row`, `c` and `v` at their depths |
| Context.XlsxCtx.DimensionAttrLoop | cxlsx_to_csv.c:400-408 | a `ref` attribute sets the column and row counts from the range's upper corner |
| Context.XlsxCtx.RowAttrLoop | cxlsx_to_csv.c:409-417 | an attribute named exactly `r` resets the expected column to 1 |
| Context.XlsxCtx.CellAttrLoop | cxlsx_to_csv.c:418-436 | the `c` attributes are applied in order, with the lookup flag cleared first |
| Context.XlsxCtx.CellAttr | cxlsx_to_csv.c:420-435 | `r` decodes the position, writes the gap commas and expects the next column; `t` starting with `s` sets the lookup flag |
| Context.XlsxCtx.CellRefAttr | cxlsx_to_csv.c:421-427 | `r` sets the position from the reference, writes the commas of the columns skipped within the grid and expects the column after the cell |
| Context.XlsxCtx.PutGapCommas | cxlsx_to_csv.c:424-425 | writes `max(0, min(current_col, W) − expected_col)` commas |
| Context.XlsxCtx.EndSheet | cxlsx_to_csv.c:445-468 | the new state is `SheetClose` of the old one: a closing `v` writes the captured or looked-up field, and a closing `row` pads and ends the line |
| Context.XlsxCtx.PutPadding | cxlsx_to_csv.c:463-464 | writes `max(0, W − expected_col)` commas |
| Context.XlsxCtx.Parse | cxlsx_to_csv.c:835-838 | feeding a document's events to one callback set leaves the context in the state `Run` gives |
| Context.ConvertSheet | cxlsx_to_csv.c:824-926 | the conversion part of `main` returns what `Convert` describes: the shared pass only when that document exists, then a reset of depth and capture flag, then the sheet pass; no output when the sheet is missing |
| Dispatch.RunAppend | cxlsx_to_csv.c:835-838 | running a document in two parts gives the same context, and is possible exactly when running it whole is |
| Dispatch.RunTexts | cxlsx_to_csv.c:380-393 | character data delivered in any number of pieces during a capture appends their concatenation to the buffer, in order |
| Dispatch.RunTextsIgnored | cxlsx_to_csv.c:380-393 | character data outside a capture leaves the context unchanged |
| Elements.RunNode | cxlsx_to_csv.c:331-393 | outside a capture, character data, and an element tree none of whose elements is, at the depth where it opens, one the pass acts on at that depth, leave the context exactly as it was, whatever their attributes and children (such as `f`, `rPr` or `sheetViews`) |
| Elements.RunNodes | cxlsx_to_csv.c:395-468 | so does any sequence of such parts |
| SharedProps.SharedPassWritesNothing | cxlsx_to_csv.c:331-393 | the shared-strings callbacks never write output |
| SharedProps.SstOpen | cxlsx_to_csv.c:335-344 | opening `sst` gives a table of `uniqueCount` NULL slots and the count, whatever other attributes come before or after `uniqueCount` |
| SharedProps.SstLoopOthers | cxlsx_to_csv.c:337-343 | attributes other than `uniqueCount` leave the table and the count alone |
| SharedProps.RunTextRun | cxlsx_to_csv.c:345-376 | a `t` at depth 2 or 3, with any attributes, stores its text in the current slot, after the slot's text when it already has some, and clears the capture flag |
| SharedProps.RunWrapped | cxlsx_to_csv.c:345-376 | a `t` inside a wrapper such as `r` or `rPh`, between any passed-over parts such as `rPr` before it and character data after it, does the same, and the wrapper itself changes nothing |
| SharedProps.RunPiece | cxlsx_to_csv.c:345-375 | a child of `si` that is a text run, bare or wrapped, appends its text fragments, joined in order, to the current slot; any other child leaves the context as it was |
| SharedProps.EntryValueStep | cxlsx_to_csv.c:355-375 | one more text run extends the entry's text, a first run turns a NULL entry into text, and a child without a run changes nothing |
| SharedProps.RunEntry | cxlsx_to_csv.c:345-377 | an `si` entry fills the current slot with the concatenation of its runs (NULL if it has none) and advances the slot index by one |
| SharedProps.RunSi | cxlsx_to_csv.c:345-377 | the same holds with any passed-over parts before the `si` |
| SharedProps.RunEntries | cxlsx_to_csv.c:345-377 | k entries fill slots 0 to k − 1 with their texts, leave the other slots NULL, and count k |
| SharedProps.SharedStringsTable | cxlsx_to_csv.c:331-393 | a document with `uniqueCount` n and entries e0 … ek−1, where k ≤ n, with any passed-over parts (indentation included) around and between the entries and their children, leaves a table of n slots whose slot i holds entry i's text and whose other slots are NULL, with k entries counted and no output |
| SheetProps.CellLoopOthers | cxlsx_to_csv.c:428-434 | attributes of `c` other than `r` set the lookup flag exactly when one of them is a `t` starting with `s`, and change nothing else |
| SheetProps.CellOpen | cxlsx_to_csv.c:418-443 | opening a `c` sets the position from its reference, writes the gap commas, expects the next column, and flags a lookup exactly when a `t` attribute starts with `s`, whatever other attributes follow `r` |
| SheetProps.RunCell | cxlsx_to_csv.c:418-461 | a cell, with any passed-over parts before it and before and after its `v`, writes its gap commas and then its field (looked up or raw), followed by a comma exactly when its column is below W; a cell without `v` writes no field, and `main`'s handlers still expect the column after it |
| SheetProps.RunValue | cxlsx_to_csv.c:437-461 | a `v` captures its text, and its close writes that text, or the table entry it indexes when the lookup flag is set, followed by a comma exactly when the column is below W |
| SheetProps.RunValueClose | cxlsx_to_csv.c:450-461 | closing `v` writes the captured or looked-up field, ends the capture and returns to the depth of the cell's children |
| SheetProps.RowOpen | cxlsx_to_csv.c:409-417 | opening a `row` restarts at column 1 exactly when some attribute is named `r`, whatever the others are; otherwise the previous row's expected column is kept |
| SheetProps.RowClose | cxlsx_to_csv.c:462-466 | closing a row writes `max(0, W − expected_col)` commas and then CRLF |
| SheetProps.RowLine | cxlsx_to_csv.c:409-467 | a row with an `r` attribute, whose cells have increasing columns in 1..W, with any passed-over parts before it, between and inside its cells and after its last cell, writes exactly the CSV line of its dense W-column grid, followed by CRLF |
| SheetProps.DenseLineReadsBack | cxlsx_to_csv.c:424-465 | that line holds exactly W − 1 separators outside quotes and reads back as W fields, with each cell's value in its own column and empty fields elsewhere |
| SheetProps.RunRows | cxlsx_to_csv.c:395-468 | a sequence of rows writes one such line per row, in order |
| SheetProps.DimensionOpen | cxlsx_to_csv.c:400-408 | the `dimension` element at depth 1 sets the grid width and height from its range |
| SheetProps.RunSheetHead | cxlsx_to_csv.c:395-443 | the worksheet head sets the grid from the range of `dimension` and reaches `sheetData`, whatever character data and elements stand before `dimension` and between it and `sheetData`, provided none of them is, at the depth where it opens, an element the handlers act on there (`dimension` at depth 1, `row` at 2, `c` at 3, `v` at 4) |
| SheetProps.RunSheetTail | cxlsx_to_csv.c:445-468 | passed-over parts after the last row, closing `sheetData`, passed-over parts after it and closing `worksheet` write nothing |
| SheetProps.SheetCsv | cxlsx_to_csv.c:395-468 | a worksheet with a dimension at least one column wide, with passed-over parts (indentation included) around and between its elements, writes exactly `CsvText` of its rows |
| Conversion.WorkbookCsv | cxlsx_to_csv.c:824-926 | a package with both documents converts to the CSV text of its rows, with shared-string cells resolved through the table the first pass built |
| Conversion.WorkbookWithoutSharedStrings | cxlsx_to_csv.c:824-926 | without a shared-strings document, a worksheet without shared-string cells converts the same way |
| Findings.AsWrittenWritesPastEnd | cxlsx_to_csv.c:364-371 | the terminator store as written lands one byte past the block, and the joined string has no terminator inside the block |
| Findings.FixedJoinReadsBack | cxlsx_to_csv.c:364-371 | with the terminator at `prevl + currl`, the block reads back as the previous text followed by the new run |
| BlankCells.BlankCellDropsField | cxlsx_to_csv.c:418-461 | under `main`'s handlers, the row `a`, blank B1, `c` of a 3-column grid is written `a,c` CRLF, which reads back as two fields |
| BlankCells.BlankCellKeepsField | cxlsx_to_csv.c:418-461 | with blank cells counted, the same row is written `a,,c` CRLF |
| BlankCells.BlankCellsKeepColumns | cxlsx_to_csv.c:409-467 | with blank cells counted, any row with an `r` attribute whose cells, blank or not, have increasing columns in 1..W, with any passed-over parts before it, between and inside its cells and after its last cell, reads back as exactly W fields, each value in its cell's column and each blank cell's column empty |

## Left out

- Command-line parsing, opening the input and output files, and selecting the sheet by number (`main`, cxlsx_to_csv.c:742-822). These are argument plumbing and I/O. The sheet's events are a parameter.
- ZIP extraction through miniz. It is a foreign library, so each document reaches the model as an optional event sequence, and `None` means the entry is absent.
- The XML tokenizer (`XML_Parse`) and its parse-error exit. The events are taken as already tokenized, and a document that Expat rejects is not modelled.
- The MXML handlers (cxlsx_to_csv.c:472-580), the Parsifal handlers (cxlsx_to_csv.c:584-716) and `GetSheetBytes` (cxlsx_to_csv.c:718-737). These are alternative backends. Only the Expat set is modelled.
- Context.XlsxCtx.ChrHndlr: the C loop does not check the capture against `BUFFSIZE`, so a longer text overruns `shr_buff`. The model requires the capture to fit (`Dispatch.CanCharData`) rather than modelling the overrun.
- Context.XlsxCtx.EndSheet: indexing `shr_str` with an index outside the table, or while the table is still NULL, is undefined behaviour in C. The model requires the index to be in range (`Dispatch.CanSheetClose`).
- Context.XlsxCtx.EndSharedStrings: the same holds for the slot a closing `t` writes to (`Dispatch.CanSharedClose`).
- `int` overflow. Column, row and count values are unbounded integers, so a reference long enough to overflow a C `int` is not modelled.
- Embedded NUL bytes. C strings end at the first NUL, and the model's strings do not. Apart from `Findings`, the text is assumed to hold no NUL.
- Memory management (`calloc`, `malloc`, `free`, `strdup`), apart from the terminator store in `Findings`. The table is a sequence of optional strings, and joining two runs is concatenation.
- Date and number formatting. The code only mentions it in a comment (cxlsx_to_csv.c:132-133), so values pass through as text, in the model as in the code.
- SheetProps.SheetCsv: it covers worksheets of the following shape only. Other documents are still covered event by event by `Dispatch.Run` and by the handler methods.
  - Every row carries an `r` attribute.
  - Every cell carries exactly one `r` attribute, first among its attributes, and the cells of a row lie in increasing columns within 1..W.
  - Under `main`'s handlers, every cell has a `v`. Under the corrected handlers, cells without `v` are allowed (see "Findings").
  - Character data and passed-over elements may stand anywhere outside `v`: before and after `dimension`, before, between and after rows, between cells, inside a cell before and after its `v`, and after `sheetData`. None of those elements is, at the depth where it opens, one the handlers act on there: `dimension` at depth 1, `row` at 2, `c` at 3 and `v` at 4. The same names at other depths are allowed.
  - A `v` holds character data only, and `dimension` holds nothing.
  - `dimension` carries only `ref`, and `sheetData` and `v` carry no attributes.
- SheetProps.RowLine: the same assumptions about a row and its cells.
- SheetProps.RunRows: the same assumptions about each row.
- SheetProps.RunCell: an inline-string cell (`t="inlineStr"` with an `is` child) has no `v`. The handlers, and the model, treat it as a cell without a value, so its text is not written.
- SharedProps.SharedStringsTable: it covers shared-strings documents of the following shape only.
  - `sst` carries `uniqueCount` exactly once, among any other attributes.
  - Character data and passed-over elements may stand before, between and after the `si` elements, and inside them. None of those elements is, at the depth where it opens, one the handlers act on there: `sst` at depth 0, `si` at 1, and `t` at 2 or 3. The same names at other depths are allowed.
  - Each `si` carries no attributes.
  - Each child of an `si` is one of three things: a `t`; a wrapper other than `t` that holds passed-over parts, then one `t`, then passed-over parts; or a passed-over part. A wrapper with two `t` children is not covered.
  - A `t` holds character data only.
- Conversion.WorkbookCsv: the shapes of SharedProps.SharedStringsTable and SheetProps.SheetCsv, under `main`'s handlers.
- Conversion.WorkbookWithoutSharedStrings: the shape of SheetProps.SheetCsv, under `main`'s handlers.
- Dispatch.CanCharData: Expat hands `ChrHndlr` UTF-8 bytes, and `BUFFSIZE` counts bytes. The model's characters are those bytes (`CRuntime.IsBytes`), so a non-ASCII character counts its encoded length against the buffer. Decoding UTF-8 is not modelled.

## Findings

| source | as written | input that shows it | evidently intended | confidence | as-written member | corrected member |
|---|---|---|---|---|---|---|
| cxlsx_to_csv.c:369 | `p[prevl + currl + 1] = 0` stores the terminator one byte past the `prevl + currl + 1` bytes just allocated, and leaves the byte that should end the string indeterminate | a shared string with two rich-text runs, `<si><r><t>ab</t></r><r><t>c</t></r></si>`: the second run joins "ab" and "c" into a 4-byte block and writes index 4 | `p[prevl + currl] = 0`, so the slot holds "abc" | high, not executed | Findings.AsWrittenWritesPastEnd | Findings.FixedJoinReadsBack |
| cxlsx_to_csv.c:418-461 | `StartSheet` sets `expected_col = current_col + 1` as soon as a `c` opens (line 426), but only a closing `v` writes a field (lines 451-460). A `c` without `v` therefore writes neither its field nor the separator after it, and every later field of the row moves one column to the left. | a grid of W = 3 and `<row r="1"><c r="A1"><v>a</v></c><c r="B1" s="1"/><c r="C1"><v>c</v></c></row>`, a styled blank cell in B1: the line is `a,c` CRLF, two fields with `c` in column B. An inline-string cell behaves the same way. | a blank cell writes an empty field, giving `a,,c` CRLF: `expected_col` moves past a cell only when its value is written (`Dispatch.FixedSheetPass`) | high, not executed | BlankCells.BlankCellDropsField | BlankCells.BlankCellsKeepColumns |
