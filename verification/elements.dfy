/** What the handlers pass over.  Each handler set acts on a few element
    names, each at one depth only (sst, si and t; dimension, row, c and v);
    every other element of a document, such as the formula f of a cell, the
    run properties rPr of rich text or the sheetViews and pageMargins of a
    worksheet, only moves the depth counter down and back up again, and
    character data outside a v or t element, such as the line breaks and
    indentation of a pretty-printed document, is dropped. */
module Elements {
  import opened CRuntime
  import opened Events
  import opened Dispatch

  /** A part of a document: an element with its attributes and its children
      in document order, or a run of character data as the tokenizer
      delivers it. */
  datatype Node =
    | Element(name: string, attrs: seq<Attr>, kids: seq<Node>)
    | Chars(chars: string)

  /** <name attrs> kids </name>, or the text itself. */
  function NodeEvents(n: Node): seq<Event>
    decreases n, 1
  {
    match n
    case Chars(t) => [Text(t)]
    case Element(name, attrs, kids) => [Open(name, attrs)] + (KidsEvents(n, |kids|) + [Close(name)])
  }

  /** The events of the first k children of n. */
  function KidsEvents(n: Node, k: nat): seq<Event>
    requires n.Element? && k <= |n.kids|
    decreases n, 0, k
  {
    if k == 0 then [] else KidsEvents(n, k - 1) + NodeEvents(n.kids[k - 1])
  }

  /** Siblings, in document order. */
  function NodesEvents(ns: seq<Node>): seq<Event>
    decreases |ns|
  {
    if ns == [] then [] else NodesEvents(ns[..|ns| - 1]) + NodeEvents(ns[|ns| - 1])
  }

  /** The element names a handler set acts on, at the depth at which they
      open: for the shared strings, sst at the root, si inside it and t
      inside si or inside a child of si; for a worksheet, dimension inside
      worksheet, row inside sheetData, c inside row and v inside c. */
  predicate HandledAt(shared: bool, name: string, d: int) {
    if shared then (d == 0 && name == "sst") || (d == 1 && name == "si") || ((d == 2 || d == 3) && name == "t")
    else (d == 1 && name == "dimension") || (d == 2 && name == "row") || (d == 3 && name == "c") || (d == 4 && name == "v")
  }

  /** Opened at depth d, no element of the tree is one the handler set acts
      on at the depth where it opens, and its character data is bytes.  The
      names may appear at other depths: a t inside a worksheet's cell, a c
      inside sheetPr or an si nested in another child of si. */
  predicate Inert(n: Node, d: int, shared: bool)
    decreases n
  {
    match n
    case Chars(t) => IsBytes(t)
    case Element(name, _, kids) =>
      !HandledAt(shared, name, d) && forall i :: 0 <= i < |kids| ==> Inert(kids[i], d + 1, shared)
  }

  predicate AllInert(ns: seq<Node>, d: int, shared: bool) {
    forall i :: 0 <= i < |ns| ==> Inert(ns[i], d, shared)
  }

  /** Such a part of a document, outside a capture, leaves the context
      exactly as it found it, whatever its attributes, text and children. */
  lemma {:induction false} RunNode(p: Pass, s: Ctx, n: Node)
    requires !s.tv && Inert(n, s.depth, p == SharedStringsPass)
    ensures CanRun(p, s, NodeEvents(n)) && Run(p, s, NodeEvents(n)) == s
    decreases n, 1
  {
    match n
    case Chars(t) =>
      assert CanStep(p, s, Text(t)) && Step(p, s, Text(t)) == s;
      RunOne(p, s, Text(t), []);
    case Element(name, attrs, kids) =>
      var s1 := s.(depth := s.depth + 1);
      var inner := KidsEvents(n, |kids|);
      assert Step(p, s, Open(name, attrs)) == s1;
      RunKids(p, s1, n, |kids|);
      assert CanStep(p, s1, Close(name)) && Step(p, s1, Close(name)) == s;
      RunOne(p, s1, Close(name), []);
      RunAppend(p, s1, inner, [Close(name)]);
      RunOne(p, s, Open(name, attrs), inner + [Close(name)]);
  }

  lemma {:induction false} RunKids(p: Pass, s: Ctx, n: Node, k: nat)
    requires n.Element? && !s.tv && k <= |n.kids|
    requires forall i :: 0 <= i < |n.kids| ==> Inert(n.kids[i], s.depth, p == SharedStringsPass)
    ensures CanRun(p, s, KidsEvents(n, k)) && Run(p, s, KidsEvents(n, k)) == s
    decreases n, 0, k
  {
    if k > 0 {
      RunKids(p, s, n, k - 1);
      RunNode(p, s, n.kids[k - 1]);
      RunAppend(p, s, KidsEvents(n, k - 1), NodeEvents(n.kids[k - 1]));
    }
  }

  /** So does any sequence of them. */
  lemma {:induction false} RunNodes(p: Pass, s: Ctx, ns: seq<Node>)
    requires !s.tv && AllInert(ns, s.depth, p == SharedStringsPass)
    ensures CanRun(p, s, NodesEvents(ns)) && Run(p, s, NodesEvents(ns)) == s
    decreases |ns|
  {
    if ns != [] {
      var init := ns[..|ns| - 1];
      assert forall i :: 0 <= i < |init| ==> init[i] == ns[i];
      RunNodes(p, s, init);
      RunNode(p, s, ns[|ns| - 1]);
      RunAppend(p, s, NodesEvents(init), NodeEvents(ns[|ns| - 1]));
    }
  }
}
