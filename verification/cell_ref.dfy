/** Spreadsheet cell references ("C3", "AB67") and ranges ("A1:C3"): the
    decoders excelcolrow and rangecolrow. */
module CellRef {
  import opened CRuntime

  predicate AllAlpha(s: string) {
    forall i :: 0 <= i < |s| ==> IsAlpha(s[i])
  }

  predicate AllUpper(s: string) {
    forall i :: 0 <= i < |s| ==> 'A' <= s[i] <= 'Z'
  }

  /** The digit a column letter stands for: 'A' and 'a' are 1, 'Z' and 'z' 26. */
  function LetterValue(c: char): (v: int)
    requires IsAlpha(c)
    ensures 1 <= v <= 26
  {
    ToUpper(c) as int - 'A' as int + 1
  }

  /** The column number of a run of letters, read as a bijective base-26
      numeral, most significant letter first. */
  function ColumnNumber(p: string): nat
    requires AllAlpha(p)
    decreases |p|
  {
    if p == [] then 0
    else ColumnNumber(p[..|p| - 1]) * 26 + LetterValue(p[|p| - 1])
  }

  /** The number of leading letters of s. */
  function LetterCount(s: string): (k: nat)
    ensures k <= |s|
    ensures AllAlpha(s[..k])
    ensures k == |s| || !IsAlpha(s[k])
  {
    if |s| > 0 && IsAlpha(s[0]) then
      var k' := LetterCount(s[1..]);
      assert s[..k' + 1] == [s[0]] + s[1..][..k'];
      k' + 1
    else 0
  }

  /** What excelcolrow stores: the column of the leading letters and the
      atoi value of everything after them. */
  function CellCoords(s: string): (int, int) {
    var k := LetterCount(s);
    (ColumnNumber(s[..k]), Atoi(s[k..]))
  }

  /** excelcolrow: folds the leading letters into the column, then reads
      the row from the rest of the string. */
  method ExcelColRow(s: string) returns (col: int, row: int)
    ensures (col, row) == CellCoords(s)
  {
    col := 0;
    var i := 0;
    while i < |s| && IsAlpha(s[i])
      invariant 0 <= i <= |s|
      invariant AllAlpha(s[..i])
      invariant col == ColumnNumber(s[..i])
    {
      assert s[..i + 1][..i] == s[..i];
      col := col * 26 + (ToUpper(s[i]) as int - 'A' as int + 1);
      i := i + 1;
    }
    LetterCountIs(s, i);
    row := Atoi(s[i..]);
  }

  /** The loop's exit condition determines LetterCount. */
  lemma {:induction false} LetterCountIs(s: string, i: nat)
    requires i <= |s| && AllAlpha(s[..i])
    requires i == |s| || !IsAlpha(s[i])
    ensures LetterCount(s) == i
    decreases i
  {
    if i > 0 {
      assert IsAlpha(s[..i][0]);
      assert s[1..][..i - 1] == s[..i][1..];
      LetterCountIs(s[1..], i - 1);
    }
  }

  /** The text after the first ':' of s, if s has one (strchr). */
  function AfterFirstColon(s: string): (r: Option<string>)
    ensures r.None? <==> ':' !in s
  {
    if s == [] then None
    else if s[0] == ':' then Some(s[1..])
    else AfterFirstColon(s[1..])
  }

  /** rangecolrow: only the part after the first ':' is decoded. */
  function RangeCoords(s: string): (int, int) {
    match AfterFirstColon(s)
    case Some(t) => CellCoords(t)
    case None => CellCoords(s)
  }

  /** rangecolrow: skips past the first ':' when there is one and decodes
      the rest with excelcolrow. */
  method RangeColRow(s: string) returns (col: int, row: int)
    ensures (col, row) == RangeCoords(s)
  {
    var t := s;
    var colon := AfterFirstColon(s);
    if colon.Some? {
      t := colon.value;
    }
    col, row := ExcelColRow(t);
  }

  /** The column letters of column n >= 1 (0 gives the empty string). */
  function ColumnName(n: nat): (p: string)
    ensures AllUpper(p) && AllAlpha(p)
    decreases n
  {
    if n == 0 then []
    else ColumnName((n - 1) / 26) + [('A' as int + (n - 1) % 26) as char]
  }

  /** Decoding the letters of column n gives back n. */
  lemma {:induction false} ColumnNumberOfName(n: nat)
    ensures ColumnNumber(ColumnName(n)) == n
    decreases n
  {
    if n > 0 {
      var p := ColumnName(n);
      assert p[..|p| - 1] == ColumnName((n - 1) / 26);
      ColumnNumberOfName((n - 1) / 26);
    }
  }

  /** Every run of upper-case letters is the name of exactly one column:
      the numbering is a bijection between such runs and the naturals. */
  lemma {:induction false} ColumnNameOfNumber(p: string)
    requires AllUpper(p)
    ensures AllAlpha(p) && ColumnName(ColumnNumber(p)) == p
    decreases |p|
  {
    assert AllAlpha(p);
    if p != [] {
      var q := p[..|p| - 1];
      var c := p[|p| - 1];
      assert AllUpper(q);
      ColumnNameOfNumber(q);
      var n := ColumnNumber(p);
      var v := LetterValue(c);
      assert n == ColumnNumber(q) * 26 + v;
      assert (n - 1) / 26 == ColumnNumber(q);
      assert (n - 1) % 26 == v - 1;
      assert ColumnName(n) == q + [c];
    }
  }

  /** Column letters are read without regard to case. */
  lemma {:induction false} ColumnNumberIgnoresCase(p: string, q: string)
    requires AllAlpha(p) && AllAlpha(q) && |p| == |q|
    requires forall i :: 0 <= i < |p| ==> ToUpper(p[i]) == ToUpper(q[i])
    ensures ColumnNumber(p) == ColumnNumber(q)
    decreases |p|
  {
    if p != [] {
      ColumnNumberIgnoresCase(p[..|p| - 1], q[..|q| - 1]);
    }
  }

  /** A reference written as column letters then a decimal row decodes to
      that column and row. */
  lemma CellRefRoundTrip(col: nat, row: nat)
    requires col >= 1
    ensures CellCoords(ColumnName(col) + DecimalString(row)) == (col, row)
  {
    var p := ColumnName(col);
    var d := DecimalString(row);
    var s := p + d;
    assert s[..|p|] == p;
    assert s[|p|..] == d;
    assert d[0] == s[|p|];
    assert AllAlpha(s[..|p|]);
    LetterCountIs(s, |p|);
    ColumnNumberOfName(col);
    AtoiDecimalString(row, []);
    assert d + [] == d;
  }

  /** A string that does not start with a letter has column 0. */
  lemma NoLetterNoColumn(s: string)
    requires s == [] || !IsAlpha(s[0])
    ensures CellCoords(s).0 == 0 && CellCoords(s).1 == Atoi(s)
  {
    LetterCountIs(s, 0);
    assert s[0..] == s;
  }

  /** rangecolrow keeps only the upper-right corner of a range. */
  lemma RangeUsesUpperCorner(a: string, b: string)
    requires ':' !in a
    ensures RangeCoords(a + ":" + b) == CellCoords(b)
  {
    AfterColonSkips(a, b);
  }

  lemma {:induction false} AfterColonSkips(a: string, b: string)
    requires ':' !in a
    ensures AfterFirstColon(a + ":" + b) == Some(b)
    decreases |a|
  {
    if a == [] {
      assert (a + ":" + b)[1..] == b;
    } else {
      assert (a + ":" + b)[1..] == a[1..] + ":" + b;
      AfterColonSkips(a[1..], b);
    }
  }

  /** A reference without ':' is decoded whole by rangecolrow. */
  lemma RangeWithoutColon(s: string)
    requires ':' !in s
    ensures RangeCoords(s) == CellCoords(s)
  {
  }

  /** A reference made of column letters only has row 0. */
  lemma LettersOnly(col: nat)
    requires col >= 1
    ensures CellCoords(ColumnName(col)) == (col, 0)
  {
    var p := ColumnName(col);
    assert p[..|p|] == p && p[|p|..] == [];
    LetterCountIs(p, |p|);
    ColumnNumberOfName(col);
  }

  /** The single-letter decodings A and Z. */
  lemma SingleLetterExamples()
    ensures CellCoords("A") == (1, 0) && CellCoords("Z") == (26, 0)
  {
    assert ColumnName(1) == [] + ['A'];
    LettersOnly(1);
    assert ColumnName(26) == [] + ['Z'];
    LettersOnly(26);
  }

  /** The double-letter decodings AA, AZ and BA. */
  lemma DoubleLetterExamples()
    ensures CellCoords("AA") == (27, 0) && CellCoords("AZ") == (52, 0)
    ensures CellCoords("BA") == (53, 0)
  {
    NamesAfterZ();
    LettersOnly(27);
    LettersOnly(52);
    LettersOnly(53);
  }

  /** The names of columns 27, 52 and 53. */
  lemma NamesAfterZ()
    ensures ColumnName(27) == "AA" && ColumnName(52) == "AZ" && ColumnName(53) == "BA"
  {
    assert ColumnName(1) == "A";
    assert ColumnName(2) == ColumnName(0) + ['B'];
    assert ColumnName(27) == ColumnName(1) + ['A'];
    assert ColumnName(52) == ColumnName(1) + ['Z'];
    assert ColumnName(53) == ColumnName(2) + ['A'];
  }

  /** C3 and its lower-case spelling c3. */
  lemma CellExamples()
    ensures CellCoords("C3") == (3, 3) && CellCoords("c3") == (3, 3)
  {
    assert ColumnName(3) == ColumnName(0) + ['C'];
    assert DecimalString(3) == "3";
    CellRefRoundTrip(3, 3);
    assert "C" + "3" == "C3";
    assert "c3"[..1] == "c" && "C3"[..1] == "C";
    LetterCountIs("c3", 1);
    LetterCountIs("C3", 1);
    ColumnNumberIgnoresCase("c", "C");
  }

  /** XFD, the last column of the format, is column 16384. */
  lemma LastColumnExample()
    ensures CellCoords("XFD1") == (16384, 1)
  {
    assert (16384 - 1) / 26 == 630 && (16384 - 1) % 26 == 3;
    assert (630 - 1) / 26 == 24 && (630 - 1) % 26 == 5;
    assert ColumnName(24) == ColumnName(0) + ['X'] == "X";
    assert ColumnName(630) == ColumnName(24) + ['F'] == "XF";
    assert ColumnName(16384) == ColumnName(630) + ['D'] == "XFD";
    assert DecimalString(1) == "1";
    CellRefRoundTrip(16384, 1);
    assert "XFD" + "1" == "XFD1";
  }

  /** The range A1:C3 gives the grid extent (3, 3). */
  lemma RangeExample()
    ensures RangeCoords("A1:C3") == (3, 3)
  {
    RangeUsesUpperCorner("A1", "C3");
    assert "A1" + ":" + "C3" == "A1:C3";
    CellExamples();
  }
}
