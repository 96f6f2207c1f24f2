/** How EndSharedStrings joins a further text run onto a shared string that
    already has text: it allocates prevl + currl + 1 bytes, copies both
    parts and writes the terminating NUL.  The block is modelled byte by
    byte, with uninitialised bytes and out-of-bounds stores made explicit,
    so that the terminator store as written can be compared with the one
    evidently intended. */
module Findings {
  import opened CRuntime

  /** One byte of a malloc'ed block. */
  datatype Slot = Init(c: char) | Uninit

  predicate NoNul(s: string) {
    '\0' !in s
  }

  /** malloc(size): size bytes of indeterminate value. */
  function Malloc(size: nat): (b: seq<Slot>)
    ensures |b| == size && forall i :: 0 <= i < size ==> b[i] == Uninit
  {
    seq(size, _ => Uninit)
  }

  /** memcpy(b + at, s, |s|). */
  function CopyInto(b: seq<Slot>, at: nat, s: string): (r: seq<Slot>)
    requires at + |s| <= |b|
    ensures |r| == |b|
    ensures forall i :: 0 <= i < |s| ==> r[at + i] == Init(s[i])
    ensures forall i :: 0 <= i < |b| && !(at <= i < at + |s|) ==> r[i] == b[i]
  {
    seq(|b|, i requires 0 <= i < |b| => if at <= i < at + |s| then Init(s[i - at]) else b[i])
  }

  /** b[i] = c: None when i is outside the block (undefined behaviour). */
  function Store(b: seq<Slot>, i: int, c: char): (r: Option<seq<Slot>>)
    ensures r.Some? <==> 0 <= i < |b|
    ensures r.Some? ==> r.value == b[i := Init(c)]
  {
    if 0 <= i < |b| then Some(b[i := Init(c)]) else None
  }

  /** Reading the block as a C string: the bytes before the first NUL, or
      None when the read reaches an indeterminate byte or runs off the end
      of the block first (undefined behaviour). */
  function CStr(b: seq<Slot>): Option<string>
    decreases |b|
  {
    if b == [] then None
    else match b[0]
      case Uninit => None
      case Init(c) =>
        if c == '\0' then Some([])
        else match CStr(b[1..])
          case None => None
          case Some(t) => Some([c] + t)
  }

  /** The block after both memcpy calls. */
  function Copied(prev: string, cur: string): (b: seq<Slot>)
    ensures |b| == |prev| + |cur| + 1
    ensures forall i :: 0 <= i < |prev| ==> b[i] == Init(prev[i])
    ensures forall i :: 0 <= i < |cur| ==> b[|prev| + i] == Init(cur[i])
    ensures b[|prev| + |cur|] == Uninit
  {
    CopyInto(CopyInto(Malloc(|prev| + |cur| + 1), 0, prev), |prev|, cur)
  }

  /** The join as written: the terminator goes to p[prevl + currl + 1]. */
  function JoinAsWritten(prev: string, cur: string): Option<seq<Slot>> {
    Store(Copied(prev, cur), |prev| + |cur| + 1, '\0')
  }

  /** The join as intended: the terminator goes to p[prevl + currl]. */
  function JoinFixed(prev: string, cur: string): Option<seq<Slot>> {
    Store(Copied(prev, cur), |prev| + |cur|, '\0')
  }

  /** The terminator store as written is one past the end of the block, and
      the last byte of the block, where the terminator belongs, is left
      indeterminate, so reading the joined string back is undefined too. */
  lemma AsWrittenWritesPastEnd(prev: string, cur: string)
    requires NoNul(prev) && NoNul(cur)
    ensures JoinAsWritten(prev, cur).None?
    ensures CStr(Copied(prev, cur)).None?
  {
    var b := Copied(prev, cur);
    var s := prev + cur;
    forall i | 0 <= i < |s|
      ensures b[i] == Init(s[i])
    {
      if i >= |prev| {
        assert b[|prev| + (i - |prev|)] == Init(cur[i - |prev|]);
      }
    }
    assert forall i :: 0 <= i < |s| ==> s[i] != '\0';
    ReadsUpToUninit(b, s);
  }

  /** The join as intended reads back as the concatenation of the two runs,
      which is what the model of EndSharedStrings stores. */
  lemma FixedJoinReadsBack(prev: string, cur: string)
    requires NoNul(prev) && NoNul(cur)
    ensures JoinFixed(prev, cur).Some?
    ensures CStr(JoinFixed(prev, cur).value) == Some(prev + cur)
  {
    var b := Copied(prev, cur);
    var s := prev + cur;
    var f := b[|s| := Init('\0')];
    forall i | 0 <= i < |s|
      ensures f[i] == Init(s[i])
    {
      if i >= |prev| {
        assert b[|prev| + (i - |prev|)] == Init(cur[i - |prev|]);
      }
    }
    assert forall i :: 0 <= i < |s| ==> s[i] != '\0';
    ReadsUpToNul(f, s);
  }

  lemma {:induction false} ReadsUpToNul(b: seq<Slot>, s: string)
    requires |s| < |b| && b[|s|] == Init('\0')
    requires forall i :: 0 <= i < |s| ==> b[i] == Init(s[i]) && s[i] != '\0'
    ensures CStr(b) == Some(s)
    decreases |s|
  {
    if s != [] {
      ReadsUpToNul(b[1..], s[1..]);
      assert [s[0]] + s[1..] == s;
    }
  }

  lemma {:induction false} ReadsUpToUninit(b: seq<Slot>, s: string)
    requires |s| < |b| && b[|s|] == Uninit
    requires forall i :: 0 <= i < |s| ==> b[i] == Init(s[i]) && s[i] != '\0'
    ensures CStr(b).None?
    decreases |s|
  {
    if s != [] {
      ReadsUpToUninit(b[1..], s[1..]);
    }
  }
}
