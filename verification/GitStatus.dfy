/** The parser for `git status --porcelain=v1 -z` and the printer it undoes. */
module GitStatus {
  import opened Util
  import opened Events

  datatype Entry = Entry(x: byte, y: byte, path: Text, orig: Option<Text>)

  const NUL: byte := 0
  const SPACE: byte := 32
  const LETTER_R: byte := 82
  const LETTER_C: byte := 67

  predicate HasOrigin(x: byte, y: byte) {
    x == LETTER_R || x == LETTER_C || y == LETTER_R || y == LETTER_C
  }

  /** Where the block starting at `from` ends: at its NUL, or where the input ends. */
  function BlockEnd(buf: Text, from: nat): (end: nat)
    requires from <= |buf|
    ensures from <= end <= |buf|
    ensures NUL !in buf[from..end]
    ensures end < |buf| ==> buf[end] == NUL
    decreases |buf| - from
  {
    if from == |buf| || buf[from] == NUL then from
    else
      var end := BlockEnd(buf, from + 1);
      assert buf[from..end] == [buf[from]] + buf[from + 1..end];
      end
  }

  function Block(buf: Text, from: nat): (Text, nat)
    requires from <= |buf|
  {
    (buf[from..BlockEnd(buf, from)], BlockEnd(buf, from))
  }

  /** The record at `i` and where the next one starts. */
  function Record(buf: Text, i: nat): (r: (Entry, nat))
    requires i + 3 <= |buf|
    ensures r.1 > i
  {
    var (path, end) := Block(buf, i + 3);
    if HasOrigin(buf[i], buf[i + 1]) && end + 1 < |buf| then
      var (orig, origEnd) := Block(buf, end + 1);
      (Entry(buf[i], buf[i + 1], path, Some(orig)), origEnd + 1)
    else
      (Entry(buf[i], buf[i + 1], path, None), end + 1)
  }

  function ParseFrom(buf: Text, i: nat): seq<Entry>
    decreases |buf| - i
  {
    if i + 3 > |buf| then []
    else
      var r := Record(buf, i);
      [r.0] + ParseFrom(buf, r.1)
  }

  method FindNul(buf: Text, from: nat) returns (end: nat)
    requires from <= |buf|
    ensures end == BlockEnd(buf, from)
  {
    end := from;
    while end < |buf| && buf[end] != NUL
      invariant from <= end <= |buf|
      invariant BlockEnd(buf, from) == BlockEnd(buf, end)
    {
      end := end + 1;
    }
  }

  method ReadRecord(buf: Text, i: nat) returns (entry: Entry, next: nat)
    requires i + 3 <= |buf|
    ensures (entry, next) == Record(buf, i)
  {
    var x, y, start := buf[i], buf[i + 1], i + 3;
    var end := FindNul(buf, start);
    var path := buf[start..end];
    var orig: Option<Text> := None;
    next := end + 1;
    if x == LETTER_R || x == LETTER_C || y == LETTER_R || y == LETTER_C {
      var origStart := end + 1;
      if origStart < |buf| {
        var origEnd := FindNul(buf, origStart);
        orig := Some(buf[origStart..origEnd]);
        next := origEnd + 1;
      }
    }
    entry := Entry(x, y, path, orig);
  }

  /** The loop over the bytes; it ends, and stays within them, on any input. */
  method ParsePorcelain(buf: Text) returns (out: seq<Entry>)
    ensures out == ParseFrom(buf, 0)
  {
    out := [];
    var i: nat := 0;
    while i < |buf|
      invariant out + ParseFrom(buf, i) == ParseFrom(buf, 0)
      decreases |buf| - i
    {
      if i + 3 > |buf| { break; }
      var entry, next := ReadRecord(buf, i);
      assert out + ([entry] + ParseFrom(buf, next)) == (out + [entry]) + ParseFrom(buf, next);
      out, i := out + [entry], next;
    }
    assert out + [] == out;
  }

  function Printed(e: Entry): Text {
    [e.x, e.y, SPACE] + e.path + [NUL] + if e.orig.Some? then e.orig.value + [NUL] else []
  }

  function Print(es: seq<Entry>): Text {
    if es == [] then [] else Printed(es[0]) + Print(es[1..])
  }

  predicate Clean(e: Entry) {
    && NUL !in e.path
    && (e.orig.Some? ==> NUL !in e.orig.value && HasOrigin(e.x, e.y))
  }

  /** Paths free of NUL, and an original path exactly with a rename or copy marker, except that
      the last entry may lack it. */
  predicate Printable(es: seq<Entry>) {
    && (forall k | 0 <= k < |es| :: Clean(es[k]))
    && (forall k | 0 <= k < |es| - 1 :: HasOrigin(es[k].x, es[k].y) ==> es[k].orig.Some?)
  }

  lemma {:induction false} BlockEndAt(buf: Text, from: nat, end: nat)
    requires from <= end < |buf| && NUL !in buf[from..end] && buf[end] == NUL
    ensures BlockEnd(buf, from) == end
    decreases end - from
  {
    if from < end {
      assert buf[from] == buf[from..end][0];
      assert forall k | from + 1 <= k < end :: buf[k] == buf[from..end][k - from];
      BlockEndAt(buf, from + 1, end);
    }
  }

  /** Parsing does not look back: what precedes position `i` does not matter. */
  lemma {:induction false} BlockEndShift(pre: Text, buf: Text, from: nat)
    requires from <= |buf|
    ensures BlockEnd(pre + buf, |pre| + from) == |pre| + BlockEnd(buf, from)
    decreases |buf| - from
  {
    if from < |buf| && buf[from] != NUL { BlockEndShift(pre, buf, from + 1); }
  }

  lemma RecordShift(pre: Text, buf: Text, i: nat)
    requires i + 3 <= |buf|
    ensures Record(pre + buf, |pre| + i) == (Record(buf, i).0, |pre| + Record(buf, i).1)
  {
    BlockShift(pre, buf, i + 3);
    var end := Block(buf, i + 3).1;
    if end + 1 < |buf| { BlockShift(pre, buf, end + 1); }
  }

  lemma BlockShift(pre: Text, buf: Text, from: nat)
    requires from <= |buf|
    ensures Block(pre + buf, |pre| + from) == (Block(buf, from).0, |pre| + Block(buf, from).1)
  {
    BlockEndShift(pre, buf, from);
    var end := BlockEnd(buf, from);
    assert (pre + buf)[|pre| + from..|pre| + end] == buf[from..end];
  }

  lemma ParseUnfold(buf: Text, i: nat, entry: Entry, next: nat)
    requires i + 3 <= |buf| && Record(buf, i) == (entry, next)
    ensures ParseFrom(buf, i) == [entry] + ParseFrom(buf, next)
  {
  }

  lemma {:induction false} ParseShift(pre: Text, buf: Text, i: nat)
    ensures ParseFrom(pre + buf, |pre| + i) == ParseFrom(buf, i)
    decreases |buf| - i
  {
    if i + 3 <= |buf| {
      var (entry, next) := Record(buf, i);
      RecordShift(pre, buf, i);
      ParseUnfold(buf, i, entry, next);
      ParseUnfold(pre + buf, |pre| + i, entry, |pre| + next);
      ParseShift(pre, buf, next);
    }
  }

  /** Reading one printed entry back. */
  lemma RecordOfPrinted(e: Entry, rest: Text)
    requires Clean(e) && (HasOrigin(e.x, e.y) && e.orig.None? ==> rest == [])
    ensures Record(Printed(e) + rest, 0) == (e, |Printed(e)|)
  {
    var buf, end := Printed(e) + rest, 3 + |e.path|;
    assert buf[3..end] == e.path && buf[end] == NUL;
    BlockEndAt(buf, 3, end);
    if e.orig.Some? {
      var origEnd := end + 1 + |e.orig.value|;
      assert buf[end + 1..origEnd] == e.orig.value && buf[origEnd] == NUL;
      BlockEndAt(buf, end + 1, origEnd);
    }
  }

  lemma {:induction false} PrintedParsesBack(es: seq<Entry>)
    requires Printable(es)
    ensures ParseFrom(Print(es), 0) == es
  {
    if es != [] {
      assert Clean(es[0]);
      TailPrintable(es);
      PrintedParsesBack(es[1..]);
      FirstParsesBack(es[0], Print(es[1..]));
    }
  }

  lemma TailPrintable(es: seq<Entry>)
    requires Printable(es) && es != []
    ensures Printable(es[1..])
    ensures HasOrigin(es[0].x, es[0].y) && es[0].orig.None? ==> Print(es[1..]) == []
  {
    assert forall k | 0 <= k < |es| - 1 :: es[1..][k] == es[k + 1];
  }

  lemma FirstParsesBack(e: Entry, rest: Text)
    requires Clean(e) && (HasOrigin(e.x, e.y) && e.orig.None? ==> rest == [])
    ensures ParseFrom(Printed(e) + rest, 0) == [e] + ParseFrom(rest, 0)
  {
    RecordOfPrinted(e, rest);
    ParseShift(Printed(e), rest, 0);
  }

  /** Whatever the bytes, the entries read are printable ones. */
  lemma {:induction false} ParsedIsPrintable(buf: Text, i: nat)
    ensures Printable(ParseFrom(buf, i))
    decreases |buf| - i
  {
    if i + 3 <= |buf| {
      var r := Record(buf, i);
      ParsedIsPrintable(buf, r.1);
      var es := ParseFrom(buf, i);
      assert es[1..] == ParseFrom(buf, r.1);
      assert forall k | 0 < k < |es| :: es[k] == es[1..][k - 1];
      assert r.0.orig.None? && HasOrigin(r.0.x, r.0.y) ==> r.1 >= |buf|;
    }
  }

  /** The parser reads a printed list back exactly when the list is printable. */
  lemma RoundTripIff(es: seq<Entry>)
    ensures ParseFrom(Print(es), 0) == es <==> Printable(es)
  {
    ParsedIsPrintable(Print(es), 0);
    if Printable(es) { PrintedParsesBack(es); }
  }

  /** On arbitrary bytes, what was read prints to bytes that read the same. */
  lemma ReadingIsStable(buf: Text)
    ensures ParseFrom(Print(ParseFrom(buf, 0)), 0) == ParseFrom(buf, 0)
  {
    ParsedIsPrintable(buf, 0);
    RoundTripIff(ParseFrom(buf, 0));
  }
}
