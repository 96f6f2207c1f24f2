/** CSV fields as output_csv writes them (the quoting rules of the sqlite
    shell), and a reader for such lines that shows nothing is lost. */
module Csv {
  import opened CRuntime

  /** The needCsvQuote table: 1 for the bytes 0..32, '"' (34), '\'' (39),
      127 and 128..255. */
  predicate NeedCsvQuote(c: char) {
    c as int <= 32 || c == '"' || c == '\'' || c as int >= 127
  }

  /** A character that forces quoting when the separator is sep. */
  predicate Flagged(c: char, sep: char) {
    NeedCsvQuote(c) || c == sep
  }

  /** Some character of z is flagged. */
  predicate HasFlagged(z: string, sep: char)
    decreases |z|
  {
    |z| > 0 && (Flagged(z[0], sep) || HasFlagged(z[1..], sep))
  }

  /** output_csv quotes a non-null field when its scan ends with i == 0:
      when some character is flagged, and also when the field is empty. */
  predicate MustQuote(z: string, sep: char) {
    |z| == 0 || HasFlagged(z, sep)
  }

  /** The field with every '"' doubled. */
  function Escape(z: string): (e: string)
    ensures |e| >= |z|
    decreases |z|
  {
    if z == [] then []
    else (if z[0] == '"' then "\"\"" else [z[0]]) + Escape(z[1..])
  }

  /** The text output_csv writes for a field, without the separator: nothing
      for NULL, the field itself when no quoting is needed, otherwise the
      escaped field between double quotes. */
  function Field(z: Option<string>, sep: char): string {
    match z
    case None => []
    case Some(v) => if MustQuote(v, sep) then "\"" + Escape(v) + "\"" else v
  }

  /** Everything output_csv writes: the field, then sep when bSep is set. */
  function CsvTerm(z: Option<string>, sep: char, bSep: bool): string {
    Field(z, sep) + (if bSep then [sep] else [])
  }

  /** output_csv's first loop: stop at the first flagged character and
      report whether the field must be quoted. */
  method NeedsQuoting(z: string, sep: char) returns (quote: bool)
    ensures quote <==> (|z| == 0 || exists i :: 0 <= i < |z| && Flagged(z[i], sep))
  {
    var i := 0;
    while i < |z|
      invariant 0 <= i <= |z|
      invariant forall k :: 0 <= k < i ==> !Flagged(z[k], sep)
    {
      if Flagged(z[i], sep) {
        assert Flagged(z[i], sep);
        i := 0;
        break;
      }
      i := i + 1;
    }
    quote := i == 0;
  }

  /** The recursive scan agrees with its quantified reading. */
  lemma {:induction false} HasFlaggedIff(z: string, sep: char)
    ensures HasFlagged(z, sep) <==> exists i :: 0 <= i < |z| && Flagged(z[i], sep)
    decreases |z|
  {
    if |z| > 0 {
      HasFlaggedIff(z[1..], sep);
      if HasFlagged(z[1..], sep) {
        var i :| 0 <= i < |z[1..]| && Flagged(z[1..][i], sep);
        assert Flagged(z[i + 1], sep);
      }
      if exists i :: 0 <= i < |z| && Flagged(z[i], sep) {
        var i :| 0 <= i < |z| && Flagged(z[i], sep);
        if i > 0 {
          assert Flagged(z[1..][i - 1], sep);
        }
      }
    }
  }

  /** A non-null field is written verbatim exactly when it is non-empty
      and no character in it is flagged. */
  lemma VerbatimIff(z: string, sep: char)
    ensures Field(Some(z), sep) == z <==>
            (|z| > 0 && forall i :: 0 <= i < |z| ==> !Flagged(z[i], sep))
  {
    HasFlaggedIff(z, sep);
  }

  lemma {:induction false} EscapeAppend(a: string, b: string)
    ensures Escape(a + b) == Escape(a) + Escape(b)
    decreases |a|
  {
    if a != [] {
      assert (a + b)[1..] == a[1..] + b;
      EscapeAppend(a[1..], b);
    } else {
      assert a + b == b;
    }
  }

  // ---- Reading CSV back ----

  /** Reads the inside of a quoted field (after the opening quote): a
      doubled quote stands for one quote, a single quote closes the field.
      Returns the value and the text after the closing quote. */
  function ReadQuoted(s: string): (r: (string, string))
    ensures |r.1| <= |s|
    decreases |s|
  {
    if s == [] then ([], [])
    else if s[0] == '"' then
      if |s| >= 2 && s[1] == '"' then
        var t := ReadQuoted(s[2..]);
        (['"'] + t.0, t.1)
      else ([], s[1..])
    else
      var t := ReadQuoted(s[1..]);
      ([s[0]] + t.0, t.1)
  }

  /** Reads an unquoted field: everything up to the next separator. */
  function ReadPlain(s: string, sep: char): (r: (string, string))
    ensures |r.1| <= |s|
    decreases |s|
  {
    if s == [] then ([], [])
    else if s[0] == sep then ([], s)
    else
      var t := ReadPlain(s[1..], sep);
      ([s[0]] + t.0, t.1)
  }

  /** Reads one field of a line; returns its value and the rest of the line. */
  function ReadField(s: string, sep: char): (r: (string, string))
    ensures |r.1| <= |s|
  {
    if |s| > 0 && s[0] == '"' then ReadQuoted(s[1..]) else ReadPlain(s, sep)
  }

  /** Splits a line into the values of its fields. */
  function SplitFields(s: string, sep: char): (vs: seq<string>)
    ensures |vs| >= 1
    decreases |s|
  {
    var r := ReadField(s, sep);
    if r.1 == [] then [r.0] else [r.0] + SplitFields(r.1[1..], sep)
  }

  /** Un-doubling an escaped field up to its closing quote recovers it. */
  lemma {:induction false} ReadQuotedEscape(z: string, rest: string)
    requires rest == [] || rest[0] != '"'
    ensures ReadQuoted(Escape(z) + "\"" + rest) == (z, rest)
    decreases |z|
  {
    var s := Escape(z) + "\"" + rest;
    if z == [] {
      assert s == "\"" + rest;
      assert s[1..] == rest;
    } else {
      var tail := Escape(z[1..]) + "\"" + rest;
      if z[0] == '"' {
        assert s == "\"\"" + tail;
        assert s[2..] == tail;
      } else {
        assert s == [z[0]] + tail;
        assert s[1..] == tail;
      }
      ReadQuotedEscape(z[1..], rest);
      assert [z[0]] + z[1..] == z;
    }
  }

  lemma {:induction false} ReadPlainUpTo(v: string, rest: string, sep: char)
    requires forall i :: 0 <= i < |v| ==> v[i] != sep
    requires rest == [] || rest[0] == sep
    ensures ReadPlain(v + rest, sep) == (v, rest)
    decreases |v|
  {
    if v == [] {
      assert v + rest == rest;
    } else {
      assert (v + rest)[1..] == v[1..] + rest;
      ReadPlainUpTo(v[1..], rest, sep);
      assert [v[0]] + v[1..] == v;
    }
  }

  /** Reading back a written field gives its value (the empty string for
      NULL) and stops at the separator that follows it. */
  lemma FieldRoundTrip(z: Option<string>, sep: char, rest: string)
    requires sep != '"'
    requires rest == [] || rest[0] == sep
    ensures ReadField(Field(z, sep) + rest, sep) == (z.GetOr([]), rest)
  {
    match z
    case None =>
      assert Field(z, sep) + rest == rest;
      ReadPlainUpTo([], rest, sep);
      assert [] + rest == rest;
    case Some(v) =>
      if MustQuote(v, sep) {
        var s := "\"" + Escape(v) + "\"" + rest;
        assert s[1..] == Escape(v) + "\"" + rest;
        ReadQuotedEscape(v, rest);
      } else {
        HasFlaggedIff(v, sep);
        assert !Flagged(v[0], sep);
        assert (v + rest)[0] == v[0];
        ReadPlainUpTo(v, rest, sep);
      }
  }

  /** A CSV line: every field is followed by the separator except the last. */
  function Line(d: seq<Option<string>>, sep: char): string
    decreases |d|
  {
    if d == [] then [] else CsvTerm(d[0], sep, |d| > 1) + Line(d[1..], sep)
  }

  /** The values a line holds: NULL fields read back as empty. */
  function Values(d: seq<Option<string>>): (vs: seq<string>)
    ensures |vs| == |d|
  {
    seq(|d|, i requires 0 <= i < |d| => d[i].GetOr([]))
  }

  lemma ValuesCons(d: seq<Option<string>>)
    requires |d| >= 1
    ensures Values(d) == [d[0].GetOr([])] + Values(d[1..])
  {
  }

  /** Splitting a written line and un-quoting its fields recovers every
      value, in order. */
  lemma {:induction false} LineRoundTrip(d: seq<Option<string>>, sep: char)
    requires |d| >= 1 && sep != '"'
    ensures SplitFields(Line(d, sep), sep) == Values(d)
    decreases |d|
  {
    var head := Field(d[0], sep);
    var rest := Line(d[1..], sep);
    ValuesCons(d);
    if |d| == 1 {
      assert rest == [];
      assert Line(d, sep) == head + [];
      FieldRoundTrip(d[0], sep, []);
      assert SplitFields(head + [], sep) == [d[0].GetOr([])];
      assert Values(d[1..]) == [];
    } else {
      var tail := [sep] + rest;
      assert Line(d, sep) == head + tail;
      FieldRoundTrip(d[0], sep, tail);
      assert tail[1..] == rest;
      assert SplitFields(head + tail, sep) == [d[0].GetOr([])] + SplitFields(rest, sep);
      LineRoundTrip(d[1..], sep);
    }
  }

  // ---- Separators outside quotes ----

  /** Whether the scan is inside quotes after reading s from state q. */
  function QuoteStateAfter(s: string, q: bool): bool
    decreases |s|
  {
    if s == [] then q
    else QuoteStateAfter(s[1..], if s[0] == '"' then !q else q)
  }

  /** The separators of s that stand outside quotes, scanning from state q. */
  function CountSeps(s: string, sep: char, q: bool): nat
    decreases |s|
  {
    if s == [] then 0
    else if s[0] == '"' then CountSeps(s[1..], sep, !q)
    else (if s[0] == sep && !q then 1 else 0) + CountSeps(s[1..], sep, q)
  }

  lemma {:induction false} CountSepsAppend(a: string, b: string, sep: char, q: bool)
    ensures CountSeps(a + b, sep, q) == CountSeps(a, sep, q) + CountSeps(b, sep, QuoteStateAfter(a, q))
    ensures QuoteStateAfter(a + b, q) == QuoteStateAfter(b, QuoteStateAfter(a, q))
    decreases |a|
  {
    if a == [] {
      assert a + b == b;
    } else {
      assert (a + b)[1..] == a[1..] + b;
      CountSepsAppend(a[1..], b, sep, if a[0] == '"' then !q else q);
    }
  }

  /** Inside quotes, an escaped field holds no separator and leaves the scan
      inside quotes. */
  lemma {:induction false} EscapeStaysQuoted(z: string, sep: char)
    requires sep != '"'
    ensures CountSeps(Escape(z), sep, true) == 0 && QuoteStateAfter(Escape(z), true)
    decreases |z|
  {
    if z != [] {
      var head := if z[0] == '"' then "\"\"" else [z[0]];
      CountSepsAppend(head, Escape(z[1..]), sep, true);
      assert head[1..] == if z[0] == '"' then "\"" else [];
      if z[0] == '"' {
        assert head[1..][1..] == [];
      }
      EscapeStaysQuoted(z[1..], sep);
    }
  }

  /** A written field contains no separator outside quotes and closes every
      quote it opens. */
  lemma FieldHasNoSeparator(z: Option<string>, sep: char)
    requires sep != '"'
    ensures CountSeps(Field(z, sep), sep, false) == 0
    ensures !QuoteStateAfter(Field(z, sep), false)
  {
    if z.Some? {
      var v := z.value;
      if MustQuote(v, sep) {
        CountSepsAppend("\"", Escape(v) + "\"", sep, false);
        CountSepsAppend(Escape(v), "\"", sep, true);
        EscapeStaysQuoted(v, sep);
        assert "\"" + Escape(v) + "\"" == "\"" + (Escape(v) + "\"");
      } else {
        HasFlaggedIff(v, sep);
        NoQuoteNoSeparator(v, sep);
      }
    }
  }

  lemma {:induction false} NoQuoteNoSeparator(v: string, sep: char)
    requires forall i :: 0 <= i < |v| ==> !Flagged(v[i], sep)
    ensures CountSeps(v, sep, false) == 0 && !QuoteStateAfter(v, false)
    decreases |v|
  {
    if v != [] {
      assert !Flagged(v[0], sep);
      NoQuoteNoSeparator(v[1..], sep);
    }
  }

  /** output_csv issues exactly one separator outside quotes when bSep is
      set and none otherwise. */
  lemma OutputCsvSeparators(z: Option<string>, sep: char, bSep: bool)
    requires sep != '"'
    ensures CountSeps(CsvTerm(z, sep, bSep), sep, false) == if bSep then 1 else 0
    ensures !QuoteStateAfter(CsvTerm(z, sep, bSep), false)
  {
    FieldHasNoSeparator(z, sep);
    CountSepsAppend(Field(z, sep), if bSep then [sep] else [], sep, false);
  }

  /** A line of n fields has exactly n - 1 separators outside quotes. */
  lemma {:induction false} LineSeparators(d: seq<Option<string>>, sep: char)
    requires |d| >= 1 && sep != '"'
    ensures CountSeps(Line(d, sep), sep, false) == |d| - 1
    ensures !QuoteStateAfter(Line(d, sep), false)
    decreases |d|
  {
    OutputCsvSeparators(d[0], sep, |d| > 1);
    CountSepsAppend(CsvTerm(d[0], sep, |d| > 1), Line(d[1..], sep), sep, false);
    if |d| > 1 {
      LineSeparators(d[1..], sep);
    }
  }

  // ---- A line as a run of consecutive fields ----

  /** The strings ts[a], ..., ts[b-1], one after the other. */
  function Joined(ts: seq<string>, a: nat, b: nat): string
    requires a <= b <= |ts|
    decreases b - a
  {
    if a == b then [] else Joined(ts, a, b - 1) + ts[b - 1]
  }

  lemma {:induction false} JoinedPeel(ts: seq<string>, a: nat, b: nat)
    requires a < b <= |ts|
    ensures Joined(ts, a, b) == ts[a] + Joined(ts, a + 1, b)
    decreases b - a
  {
    if a + 1 < b {
      JoinedPeel(ts, a, b - 1);
    } else {
      assert Joined(ts, a, b) == [] + ts[a];
    }
  }

  lemma {:induction false} JoinedSplit(ts: seq<string>, a: nat, m: nat, b: nat)
    requires a <= m <= b <= |ts|
    ensures Joined(ts, a, b) == Joined(ts, a, m) + Joined(ts, m, b)
    decreases b - m
  {
    if m < b {
      JoinedSplit(ts, a, m, b - 1);
    } else {
      assert Joined(ts, m, b) == [];
    }
  }

  /** What output_csv writes for each field of the line for d: the field,
      then the separator unless it is the last one. */
  function Terms(d: seq<Option<string>>, sep: char): (ts: seq<string>)
    ensures |ts| == |d|
  {
    seq(|d|, j requires 0 <= j < |d| => CsvTerm(d[j], sep, j < |d| - 1))
  }

  /** Fields a .. b-1 of the line for d, each with the separator the line
      gives it. */
  function Span(d: seq<Option<string>>, sep: char, a: nat, b: nat): string
    requires a <= b <= |d|
  {
    Joined(Terms(d, sep), a, b)
  }

  lemma SpanPeel(d: seq<Option<string>>, sep: char, a: nat, b: nat)
    requires a < b <= |d|
    ensures Span(d, sep, a, b) == CsvTerm(d[a], sep, a < |d| - 1) + Span(d, sep, a + 1, b)
  {
    JoinedPeel(Terms(d, sep), a, b);
  }

  lemma SpanJoin(d: seq<Option<string>>, sep: char, a: nat, m: nat, b: nat)
    requires a <= m <= b <= |d|
    ensures Span(d, sep, a, b) == Span(d, sep, a, m) + Span(d, sep, m, b)
  {
    JoinedSplit(Terms(d, sep), a, m, b);
  }

  lemma {:induction false} LineIsSpan(d: seq<Option<string>>, sep: char, a: nat)
    requires a <= |d|
    ensures Line(d[a..], sep) == Span(d, sep, a, |d|)
    decreases |d| - a
  {
    if a < |d| {
      assert d[a..][1..] == d[a + 1..];
      LineIsSpan(d, sep, a + 1);
      SpanPeel(d, sep, a, |d|);
    } else {
      assert d[a..] == [];
    }
  }

  /** n separators in a row. */
  function Seps(n: nat, sep: char): (r: string)
    ensures |r| == n
  {
    seq(n, _ => sep)
  }

  /** NULL fields that are not last write just their separators. */
  lemma {:induction false} SpanOfNulls(d: seq<Option<string>>, sep: char, a: nat, b: nat)
    requires a <= b < |d|
    requires forall j :: a <= j < b ==> d[j].None?
    ensures Span(d, sep, a, b) == Seps(b - a, sep)
    decreases b - a
  {
    if a < b {
      SpanOfNulls(d, sep, a, b - 1);
      assert Terms(d, sep)[b - 1] == [sep];
      assert Seps(b - a, sep) == Seps(b - 1 - a, sep) + [sep];
    } else {
      assert Seps(0, sep) == [];
    }
  }

  /** Fields 0 .. b of a line whose fields a .. b-1 are NULL: the fields
      before a, one separator for each NULL field, then field b. */
  lemma SpanGapField(d: seq<Option<string>>, sep: char, a: nat, b: nat)
    requires a <= b < |d|
    requires forall j :: a <= j < b ==> d[j].None?
    ensures Span(d, sep, 0, b + 1) == Span(d, sep, 0, a) + Seps(b - a, sep) + CsvTerm(d[b], sep, b < |d| - 1)
  {
    SpanOfNulls(d, sep, a, b);
    SpanJoin(d, sep, 0, a, b);
    assert Span(d, sep, 0, b + 1) == Span(d, sep, 0, b) + Terms(d, sep)[b];
  }

  /** Output that holds fields 0 .. a-1 and then receives one separator
      for each NULL field a .. b-1 and the term of field b holds fields
      0 .. b. */
  lemma SpanGapStep(d: seq<Option<string>>, sep: char, a: nat, b: nat, v: Option<string>, last: bool,
                    before: string, after: string)
    requires a <= b < |d|
    requires forall j :: a <= j < b ==> d[j].None?
    requires d[b] == v && last == (b < |d| - 1)
    requires after == before + Span(d, sep, 0, a) + Seps(b - a, sep) + CsvTerm(v, sep, last)
    ensures after == before + Span(d, sep, 0, b + 1)
  {
    SpanGapField(d, sep, a, b);
    Regroup(before, Span(d, sep, 0, a), Seps(b - a, sep), CsvTerm(v, sep, last));
  }

  /** Output written in three pieces is the first piece followed by the
      other two. */
  lemma Regroup(w: string, x: string, y: string, z: string)
    ensures w + x + y + z == w + (x + y + z)
  {
  }

  lemma Regroup3(w: string, x: string, y: string)
    ensures w + x + y == w + (x + y)
  {
  }

  /** A line whose fields from a on are all NULL: the fields before a, then
      one separator for each NULL field but the last. */
  lemma LineOfNullTail(d: seq<Option<string>>, sep: char, a: nat)
    requires a <= |d|
    requires forall j :: a <= j < |d| ==> d[j].None?
    ensures Line(d, sep) == Span(d, sep, 0, a) + Seps(if |d| > a + 1 then |d| - a - 1 else 0, sep)
  {
    LineIsSpan(d, sep, 0);
    assert d[0..] == d;
    if a < |d| {
      SpanGapField(d, sep, a, |d| - 1);
      assert CsvTerm(d[|d| - 1], sep, false) == [];
    } else {
      assert Seps(0, sep) == [];
    }
  }

  /** Escaping leaves a field without quotes unchanged. */
  lemma {:induction false} EscapeWithoutQuotes(v: string)
    requires '"' !in v
    ensures Escape(v) == v
    decreases |v|
  {
    if v != [] {
      assert v[0] in v;
      assert '"' !in v[1..] by {
        forall i | 0 <= i < |v[1..]| ensures v[1..][i] != '"' { assert v[1..][i] == v[i + 1]; }
      }
      EscapeWithoutQuotes(v[1..]);
      assert [v[0]] + v[1..] == v;
    }
  }

  lemma {:induction false} EscapeTwoQuotes(a: string, b: string, c: string, q: string)
    requires '"' !in a && '"' !in b && '"' !in c && q == "\""
    ensures Escape(a + (q + (b + (q + c)))) == a + (q + q + (b + (q + q + c)))
  {
    EscapeWithoutQuotes(a);
    EscapeWithoutQuotes(b);
    EscapeWithoutQuotes(c);
    assert Escape(q) == q + q by { assert Escape(q) == "\"\"" + Escape([]); }
    EscapeAppend(q, c);
    EscapeAppend(b, q + c);
    assert Escape(b + (q + c)) == b + (q + q + c);
    EscapeAppend(q, b + (q + c));
    assert Escape(q + (b + (q + c))) == q + q + (b + (q + q + c));
    EscapeAppend(a, q + (b + (q + c)));
  }

  /** Escaping one more character of v appends that character, doubled
      when it is a quote. */
  lemma EscapeStep(v: string, i: nat)
    requires i < |v|
    ensures Escape(v[..i + 1]) == Escape(v[..i]) + ((if v[i] == '"' then ['"'] else []) + [v[i]])
  {
    EscapeAppend(v[..i], [v[i]]);
    assert v[..i + 1] == v[..i] + [v[i]];
    assert [v[i]][1..] == [];
  }

  /** The sample field of the converter's notes: a field with quotes and a
      separator is quoted with its quotes doubled. */
  lemma QuotingExample(z: string)
    requires z == "He said \"hi\", bye"
    ensures Field(Some(z), ',') == "\"He said \"\"hi\"\", bye\""
  {
    HasFlaggedIff(z, ',');
    assert Flagged(z[2], ',');
    var e := SampleEscape(z);
    SampleLiterals();
  }

  /** The escaped sample field: both of its quotes are doubled. */
  lemma SampleEscape(z: string) returns (e: string)
    requires z == "He said \"hi\", bye"
    ensures e == "He said \"\"hi\"\", bye" && Escape(z) == e
  {
    var a, b, c, q := "He said ", "hi", ", bye", "\"";
    SampleLiterals();
    EscapeTwoQuotes(a, b, c, q);
    e := a + (q + q + (b + (q + q + c)));
  }

  /** The sample field and its escaped form, cut at the quotes. */
  lemma SampleLiterals()
    ensures "He said \"hi\", bye" == "He said " + ("\"" + ("hi" + ("\"" + ", bye")))
    ensures "He said " + ("\"" + "\"" + ("hi" + ("\"" + "\"" + ", bye"))) == "He said \"\"hi\"\", bye"
    ensures "\"" + "He said \"\"hi\"\", bye" + "\"" == "\"He said \"\"hi\"\", bye\""
  {
  }
}
