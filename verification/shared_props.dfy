/** What the shared-strings pass builds: the table of uniqueCount entries in
    which entry i holds the concatenated text runs of the i-th si element. */
module SharedProps {
  import opened CRuntime
  import opened Events
  import opened Dispatch
  import opened Elements

  // ---- Documents ----

  /** One child of an si element: a t element directly inside si, with its
      attributes (such as xml:space); a t element inside a wrapper such as r
      (rich text, whose rPr properties come first) or rPh (phonetic text),
      with what the wrapper holds before and after it; or another child,
      such as phoneticPr or the character data between two children, that
      holds no text run. */
  datatype Piece =
    | Plain(attrs: seq<Attr>, frags: seq<string>)
    | Wrapped(tag: string, wattrs: seq<Attr>, props: seq<Node>, attrs: seq<Attr>, frags: seq<string>,
              trail: seq<Node>)
    | Other(node: Node)

  /** The children of an si element, in document order. */
  type Entry = seq<Piece>

  /** An si element, with what precedes it inside sst since the previous
      one. */
  datatype Si = Si(lead: seq<Node>, pieces: Entry)

  /** <t attrs> text </t> */
  function TextRunEvents(attrs: seq<Attr>, f: seq<string>): seq<Event> {
    [Open("t", attrs)] + (Texts(f) + [Close("t")])
  }

  function PieceEvents(p: Piece): seq<Event> {
    match p
    case Plain(a, f) => TextRunEvents(a, f)
    case Wrapped(tag, wa, props, a, f, trail) =>
      [Open(tag, wa)] + (NodesEvents(props) + (TextRunEvents(a, f) + (NodesEvents(trail) + [Close(tag)])))
    case Other(n) => NodeEvents(n)
  }

  function PiecesEvents(ps: seq<Piece>): seq<Event>
    decreases |ps|
  {
    if ps == [] then [] else PiecesEvents(ps[..|ps| - 1]) + PieceEvents(ps[|ps| - 1])
  }

  /** <si> children </si> */
  function EntryEvents(e: Entry): seq<Event> {
    [Open("si", [])] + (PiecesEvents(e) + [Close("si")])
  }

  /** lead <si> children </si> */
  function SiEvents(e: Si): seq<Event> {
    NodesEvents(e.lead) + EntryEvents(e.pieces)
  }

  function EntriesEvents(es: seq<Si>): seq<Event>
    decreases |es|
  {
    if es == [] then [] else EntriesEvents(es[..|es| - 1]) + SiEvents(es[|es| - 1])
  }

  /** An sst element: the attributes before and after its uniqueCount (such
      as xmlns and count), the count uniqueCount declares, its si entries,
      and what follows the last of them. */
  datatype Sst = Sst(pre: seq<Attr>, count: nat, post: seq<Attr>, entries: seq<Si>, tail: seq<Node>)

  function SstAttrs(d: Sst): seq<Attr> {
    d.pre + ([Attr("uniqueCount", DecimalString(d.count))] + d.post)
  }

  /** <sst .. uniqueCount="n" ..> entries tail </sst> */
  function SstEvents(d: Sst): seq<Event> {
    [Open("sst", SstAttrs(d))] + (EntriesEvents(d.entries) + (NodesEvents(d.tail) + [Close("sst")]))
  }

  // ---- The table they stand for ----

  /** A child of si the handlers can take in: a run's text is bytes that
      fit in shr_buff with the terminator, a wrapper is not itself a t, and
      the rest (what a wrapper holds around its t, a child without a run)
      is passed over. */
  predicate PieceOk(p: Piece) {
    match p
    case Plain(_, f) => AllBytes(f) && |Concat(f)| < BuffSize
    case Wrapped(tag, _, props, _, f, trail) =>
      tag != "t" && AllInert(props, 3, true) && AllInert(trail, 3, true) && AllBytes(f) && |Concat(f)| < BuffSize
    case Other(n) => Inert(n, 2, true)
  }

  /** What precedes each si is passed over and each child of it can be
      taken in. */
  predicate EntriesOk(es: seq<Si>) {
    (forall i :: 0 <= i < |es| ==> AllInert(es[i].lead, 1, true)) &&
    forall i, j :: 0 <= i < |es| && 0 <= j < |es[i].pieces| ==> PieceOk(es[i].pieces[j])
  }

  /** The attribute names of sst are distinct, and there are no more si
      entries than uniqueCount declares. */
  predicate SstOk(d: Sst) {
    !Named(d.pre, "uniqueCount") && !Named(d.post, "uniqueCount") &&
    |d.entries| <= d.count && EntriesOk(d.entries) && AllInert(d.tail, 1, true)
  }

  /** The text a child of si contributes. */
  function RunText(p: Piece): string {
    if p.Other? then [] else Concat(p.frags)
  }

  /** The text of all runs of an entry, in order. */
  function PiecesText(ps: seq<Piece>): string
    decreases |ps|
  {
    if ps == [] then [] else PiecesText(ps[..|ps| - 1]) + RunText(ps[|ps| - 1])
  }

  /** Some child of the entry is a text run. */
  predicate HasRun(e: Entry) {
    exists i :: 0 <= i < |e| && !e[i].Other?
  }

  /** The table slot of an entry: NULL for an si without text runs. */
  function EntryValue(e: Entry): Option<string> {
    if HasRun(e) then Some(PiecesText(e)) else None
  }

  /** The table after the entries es, in a table of n slots. */
  function Table(n: nat, es: seq<Si>): (t: seq<Option<string>>)
    ensures |t| == n
  {
    seq(n, i requires 0 <= i < n => if i < |es| then EntryValue(es[i].pieces) else None)
  }

  // ---- Runs ----

  /** The shared-strings callbacks never write to the output. */
  lemma {:induction false} SharedPassWritesNothing(s: Ctx, evs: seq<Event>)
    requires CanRun(SharedStringsPass, s, evs)
    ensures Run(SharedStringsPass, s, evs).out == s.out
    decreases |evs|
  {
    if evs != [] {
      SharedPassWritesNothing(Step(SharedStringsPass, s, evs[0]), evs[1..]);
    }
  }

  /** A text run inside an si element appends its text to the entry being
      filled, and an entry still NULL starts with it; any other child of si
      leaves the context as it was. */
  lemma RunPiece(s: Ctx, p: Piece)
    requires s.depth == 2 && !s.tv && 0 <= s.shrStrNum < |s.shrStr| && PieceOk(p)
    ensures CanRun(SharedStringsPass, s, PieceEvents(p))
    ensures p.Other? ==> Run(SharedStringsPass, s, PieceEvents(p)) == s
    ensures var t := Run(SharedStringsPass, s, PieceEvents(p));
      !p.Other? ==>
      t.depth == 2 && !t.tv && t.shrStrNum == s.shrStrNum && t.shrStrCnt == s.shrStrCnt && t.out == s.out &&
      t.shrStr == s.shrStr[s.shrStrNum := Some(s.shrStr[s.shrStrNum].GetOr([]) + Concat(p.frags))]
  {
    match p
    case Plain(a, f) =>
      RunTextRun(s, a, f);
    case Wrapped(tag, wa, props, a, f, trail) =>
      RunWrapped(s, tag, wa, props, a, f, trail);
    case Other(n) =>
      RunNode(SharedStringsPass, s, n);
  }

  /** A t element inside a wrapper, between the wrapper's other children. */
  lemma RunWrapped(s: Ctx, tag: string, wa: seq<Attr>, props: seq<Node>, a: seq<Attr>, f: seq<string>,
                   trail: seq<Node>)
    requires s.depth == 2 && !s.tv && 0 <= s.shrStrNum < |s.shrStr|
    requires tag != "t" && AllInert(props, 3, true) && AllInert(trail, 3, true)
    requires AllBytes(f) && |Concat(f)| < BuffSize
    ensures var evs := [Open(tag, wa)] + (NodesEvents(props) + (TextRunEvents(a, f) + (NodesEvents(trail) + [Close(tag)])));
      CanRun(SharedStringsPass, s, evs) &&
      Run(SharedStringsPass, s, evs)
      == s.(buff := Concat(f), shrStr := s.shrStr[s.shrStrNum := Some(s.shrStr[s.shrStrNum].GetOr([]) + Concat(f))])
  {
    var p := SharedStringsPass;
    var s1 := s.(depth := 3);
    var run := TextRunEvents(a, f);
    var close := NodesEvents(trail) + [Close(tag)];
    RunNodes(p, s1, props);
    RunTextRun(s1, a, f);
    var s2 := Run(p, s1, run);
    RunNodes(p, s2, trail);
    RunOne(p, s2, Close(tag), []);
    RunAppend(p, s2, NodesEvents(trail), [Close(tag)]);
    RunAppend(p, s1, run, close);
    RunAppend(p, s1, NodesEvents(props), run + close);
    RunOne(p, s, Open(tag, wa), NodesEvents(props) + (run + close));
  }

  /** A t element directly inside si or inside one of its children stores
      its text in the entry being filled: appended to it, or as its start
      when the entry is still NULL. */
  lemma RunTextRun(s: Ctx, a: seq<Attr>, f: seq<string>)
    requires (s.depth == 2 || s.depth == 3) && 0 <= s.shrStrNum < |s.shrStr|
    requires AllBytes(f) && |Concat(f)| < BuffSize
    ensures CanRun(SharedStringsPass, s, TextRunEvents(a, f))
    ensures Run(SharedStringsPass, s, TextRunEvents(a, f))
      == s.(tv := false, buff := Concat(f),
            shrStr := s.shrStr[s.shrStrNum := Some(s.shrStr[s.shrStrNum].GetOr([]) + Concat(f))])
  {
    var p := SharedStringsPass;
    var s1 := s.(tv := true, buff := [], depth := s.depth + 1);
    assert SharedOpen(s, "t", a) == s1;
    RunTexts(p, s1, f);
    var s2 := s1.(buff := Concat(f));
    assert [] + Concat(f) == Concat(f);
    RunOne(p, s2, Close("t"), []);
    RunAppend(p, s1, Texts(f), [Close("t")]);
    RunOne(p, s, Open("t", a), Texts(f) + [Close("t")]);
  }

  /** The context inside si element number k after its first j children. */
  predicate PiecesDone(s: Ctx, t: Ctx, e: Entry, j: nat)
    requires j <= |e| && 0 <= s.shrStrNum < |s.shrStr|
  {
    t.depth == 2 && !t.tv && t.shrStrNum == s.shrStrNum && t.shrStrCnt == s.shrStrCnt && t.out == s.out &&
    t.shrStr == s.shrStr[s.shrStrNum := EntryValue(e[..j])]
  }

  lemma PiecesRunStep(s: Ctx, e: Entry, j: nat)
    requires 0 <= s.shrStrNum < |s.shrStr| && 1 <= j <= |e| && PieceOk(e[j - 1])
    requires CanRun(SharedStringsPass, s, PiecesEvents(e[..j - 1]))
    requires PiecesDone(s, Run(SharedStringsPass, s, PiecesEvents(e[..j - 1])), e, j - 1)
    ensures CanRun(SharedStringsPass, s, PiecesEvents(e[..j]))
    ensures PiecesDone(s, Run(SharedStringsPass, s, PiecesEvents(e[..j])), e, j)
  {
    var before := PiecesEvents(e[..j - 1]);
    var t := Run(SharedStringsPass, s, before);
    var n := s.shrStrNum;
    assert e[..j][..j - 1] == e[..j - 1];
    assert PiecesEvents(e[..j]) == before + PieceEvents(e[j - 1]);
    RunPiece(t, e[j - 1]);
    RunAppend(SharedStringsPass, s, before, PieceEvents(e[j - 1]));
    EntryValueStep(e, j);
    if !e[j - 1].Other? {
      UpdateTwice(s.shrStr, n, EntryValue(e[..j - 1]), EntryValue(e[..j]));
    }
  }

  /** A slot written twice holds the second value. */
  lemma UpdateTwice(a: seq<Option<string>>, n: nat, x: Option<string>, y: Option<string>)
    requires n < |a|
    ensures a[n := x][n := y] == a[n := y]
  {
  }

  /** One more text run extends the entry's text, and a first run makes a
      NULL entry non-NULL; a child without a run changes nothing. */
  lemma EntryValueStep(e: Entry, j: nat)
    requires 1 <= j <= |e|
    ensures e[j - 1].Other? ==> EntryValue(e[..j]) == EntryValue(e[..j - 1])
    ensures !e[j - 1].Other? ==>
      EntryValue(e[..j]) == Some(EntryValue(e[..j - 1]).GetOr([]) + Concat(e[j - 1].frags))
  {
    var a := e[..j];
    var b := e[..j - 1];
    assert a[..j - 1] == b;
    assert forall i :: 0 <= i < j - 1 ==> a[i] == b[i];
    assert a[j - 1] == e[j - 1];
    assert HasRun(a) <==> HasRun(b) || !e[j - 1].Other?;
    assert PiecesText(a) == PiecesText(b) + RunText(e[j - 1]);
    if e[j - 1].Other? {
      assert PiecesText(b) + [] == PiecesText(b);
    }
    if !HasRun(b) {
      NoRunNoText(b);
    }
  }

  /** Children without runs contribute no text. */
  lemma {:induction false} NoRunNoText(ps: seq<Piece>)
    requires !HasRun(ps)
    ensures PiecesText(ps) == []
    decreases |ps|
  {
    if ps != [] {
      var init := ps[..|ps| - 1];
      assert forall i :: 0 <= i < |init| ==> init[i] == ps[i];
      NoRunNoText(init);
      assert ps[|ps| - 1].Other?;
    }
  }

  lemma {:induction false} RunPieces(s: Ctx, e: Entry, j: nat)
    requires s.depth == 2 && !s.tv && 0 <= s.shrStrNum < |s.shrStr| && s.shrStr[s.shrStrNum].None?
    requires j <= |e| && forall i :: 0 <= i < |e| ==> PieceOk(e[i])
    ensures CanRun(SharedStringsPass, s, PiecesEvents(e[..j]))
    ensures PiecesDone(s, Run(SharedStringsPass, s, PiecesEvents(e[..j])), e, j)
    decreases j
  {
    if j == 0 {
      assert e[..0] == [];
      assert s.shrStr[s.shrStrNum := None] == s.shrStr;
    } else {
      RunPieces(s, e, j - 1);
      PiecesRunStep(s, e, j);
    }
  }

  /** An si element fills the slot shr_str_num with its runs' text, then
      moves on to the next slot. */
  lemma RunEntry(s: Ctx, e: Entry)
    requires s.depth == 1 && !s.tv && 0 <= s.shrStrNum < |s.shrStr| && s.shrStr[s.shrStrNum].None?
    requires forall i :: 0 <= i < |e| ==> PieceOk(e[i])
    ensures CanRun(SharedStringsPass, s, EntryEvents(e))
    ensures var t := Run(SharedStringsPass, s, EntryEvents(e));
      t.depth == 1 && !t.tv && t.shrStrNum == s.shrStrNum + 1 && t.shrStrCnt == s.shrStrCnt && t.out == s.out &&
      t.shrStr == s.shrStr[s.shrStrNum := EntryValue(e)]
  {
    var p := SharedStringsPass;
    var s1 := s.(depth := 2);
    RunPieces(s1, e, |e|);
    assert e[..|e|] == e;
    var t := Run(p, s1, PiecesEvents(e));
    RunOne(p, t, Close("si"), []);
    RunAppend(p, s1, PiecesEvents(e), [Close("si")]);
    RunOne(p, s, Open("si", []), PiecesEvents(e) + [Close("si")]);
  }

  /** What precedes an si element is passed over, then the element fills
      its slot. */
  lemma RunSi(s: Ctx, e: Si)
    requires s.depth == 1 && !s.tv && 0 <= s.shrStrNum < |s.shrStr| && s.shrStr[s.shrStrNum].None?
    requires AllInert(e.lead, 1, true) && forall i :: 0 <= i < |e.pieces| ==> PieceOk(e.pieces[i])
    ensures CanRun(SharedStringsPass, s, SiEvents(e))
    ensures var t := Run(SharedStringsPass, s, SiEvents(e));
      t.depth == 1 && !t.tv && t.shrStrNum == s.shrStrNum + 1 && t.shrStrCnt == s.shrStrCnt && t.out == s.out &&
      t.shrStr == s.shrStr[s.shrStrNum := EntryValue(e.pieces)]
  {
    RunNodes(SharedStringsPass, s, e.lead);
    RunEntry(s, e.pieces);
    RunAppend(SharedStringsPass, s, NodesEvents(e.lead), EntryEvents(e.pieces));
  }

  /** The context inside sst after k si elements. */
  predicate EntriesDone(t: Ctx, n: nat, es: seq<Si>) {
    t.depth == 1 && !t.tv && t.shrStrNum == |es| && t.shrStrCnt == n && t.out == [] &&
    t.shrStr == Table(n, es)
  }

  lemma EntriesRunStep(s: Ctx, n: nat, es: seq<Si>)
    requires 1 <= |es| <= n && EntriesOk(es)
    requires CanRun(SharedStringsPass, s, EntriesEvents(es[..|es| - 1]))
    requires EntriesDone(Run(SharedStringsPass, s, EntriesEvents(es[..|es| - 1])), n, es[..|es| - 1])
    ensures CanRun(SharedStringsPass, s, EntriesEvents(es))
    ensures EntriesDone(Run(SharedStringsPass, s, EntriesEvents(es)), n, es)
  {
    var k := |es| - 1;
    var init := es[..k];
    var t := Run(SharedStringsPass, s, EntriesEvents(init));
    assert t.shrStr[k] == None;
    forall i | 0 <= i < |es[k].pieces|
      ensures PieceOk(es[k].pieces[i])
    {
    }
    RunSi(t, es[k]);
    RunAppend(SharedStringsPass, s, EntriesEvents(init), SiEvents(es[k]));
    assert Table(n, init)[k := EntryValue(es[k].pieces)] == Table(n, es);
  }

  lemma {:induction false} RunEntries(s: Ctx, n: nat, es: seq<Si>)
    requires EntriesDone(s, n, [])
    requires |es| <= n && EntriesOk(es)
    ensures CanRun(SharedStringsPass, s, EntriesEvents(es))
    ensures EntriesDone(Run(SharedStringsPass, s, EntriesEvents(es)), n, es)
    decreases |es|
  {
    if es != [] {
      var init := es[..|es| - 1];
      assert forall i :: 0 <= i < |init| ==> init[i] == es[i];
      RunEntries(s, n, init);
      EntriesRunStep(s, n, es);
    }
  }

  /** Opening sst sizes a NULL table from its uniqueCount, whatever other
      attributes it carries. */
  lemma SstOpen(s: Ctx, d: Sst)
    requires s.depth == 0 && !Named(d.pre, "uniqueCount") && !Named(d.post, "uniqueCount")
    ensures SharedOpen(s, "sst", SstAttrs(d)) == s.(shrStrCnt := d.count, shrStr := NullTable(d.count), depth := 1)
  {
    var uc := [Attr("uniqueCount", DecimalString(d.count))];
    var s1 := s.(shrStrCnt := d.count, shrStr := NullTable(d.count));
    AtoiDecimalString(d.count, []);
    assert DecimalString(d.count) + [] == DecimalString(d.count);
    assert uc[..0] == [];
    assert ApplyAttrs(SstLoop, s, uc) == s1;
    SstLoopOthers(s, d.pre);
    SstLoopOthers(s1, d.post);
    ApplyAttrsAppend(SstLoop, s, d.pre, uc + d.post);
    ApplyAttrsAppend(SstLoop, s, uc, d.post);
  }

  /** Attributes other than uniqueCount leave the sst loop's state alone. */
  lemma {:induction false} SstLoopOthers(s: Ctx, attrs: seq<Attr>)
    requires !Named(attrs, "uniqueCount")
    ensures ApplyAttrs(SstLoop, s, attrs) == s
    decreases |attrs|
  {
    if attrs != [] {
      var init := attrs[..|attrs| - 1];
      assert forall i :: 0 <= i < |init| ==> init[i] == attrs[i];
      SstLoopOthers(s, init);
      assert attrs[|attrs| - 1].name != "uniqueCount";
    }
  }

  /** A shared-strings document with uniqueCount n and at most n si elements
      loads a table of n slots: slot i holds the text of the i-th si element
      (NULL when it has no text run), the slots after the last si stay NULL,
      and nothing is written to the output. */
  lemma SharedStringsTable(d: Sst)
    requires SstOk(d)
    ensures CanRun(SharedStringsPass, Zero(), SstEvents(d))
    ensures var t := Run(SharedStringsPass, Zero(), SstEvents(d));
      t.shrStr == Table(d.count, d.entries) && t.shrStrNum == |d.entries| && t.shrStrCnt == d.count &&
      t.out == [] && t.depth == 0 && !t.tv
  {
    var p := SharedStringsPass;
    var n := d.count;
    var es := d.entries;
    SstOpen(Zero(), d);
    assert NullTable(n) == Table(n, []);
    var s2 := Zero().(shrStrCnt := n, shrStr := NullTable(n), depth := 1);
    RunEntries(s2, n, es);
    var t := Run(p, s2, EntriesEvents(es));
    var close := NodesEvents(d.tail) + [Close("sst")];
    RunNodes(p, t, d.tail);
    RunOne(p, t, Close("sst"), []);
    RunAppend(p, t, NodesEvents(d.tail), [Close("sst")]);
    RunAppend(p, s2, EntriesEvents(es), close);
    RunOne(p, Zero(), Open("sst", SstAttrs(d)), EntriesEvents(es) + close);
  }
}
