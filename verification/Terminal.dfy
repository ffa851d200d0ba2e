/** The scrollback of a terminal: a ring of bytes, delta polling, and attach-plus-live. */
module Terminal {
  import opened Util
  import opened Events

  const RING: nat := 200_000

  /** What a poll returns: the bytes past `since` in the ring, and the length to adopt. */
  function Delta(ring: Text, since: nat): Text {
    if since >= |ring| then [] else ring[since..]
  }

  /** Reading a chunk: extend, then drop the oldest bytes over the cap. */
  function Extended(ring: Text, chunk: Text): Text {
    LastN(ring + chunk, RING)
  }

  function Output(chunks: seq<Text>): Text {
    if chunks == [] then [] else Output(chunks[..|chunks| - 1]) + chunks[|chunks| - 1]
  }

  class Session {
    var history: Text
    ghost var output: Text

    /** The ring is always the last 200 000 bytes of everything read. */
    ghost predicate Valid()
      reads this
    {
      history == LastN(output, RING)
    }

    constructor ()
      ensures Valid() && output == []
    {
      history, output := [], [];
    }

    method OnRead(chunk: Text)
      requires Valid()
      modifies this
      ensures Valid() && output == old(output) + chunk && history == Extended(old(history), chunk)
    {
      LastNAppend(output, chunk, RING);
      history := history + chunk;
      if |history| > RING {
        var drop := |history| - RING;
        history := history[drop..];
      }
      output := output + chunk;
    }

    method HistorySince(since: nat) returns (bytes: Text, total: nat)
      requires Valid()
      ensures bytes == Delta(history, since) && total == |history|
      ensures |output| <= RING && since <= |output| ==> bytes == output[since..] && total == |output|
      ensures total == Min(|output|, RING)
      ensures bytes == if since >= total then [] else output[|output| - total + since..]
    {
      total := |history|;
      bytes := if since >= total then [] else history[since..];
    }
  }

  /** Trimming in steps trims the same as trimming once. */
  lemma LastNAppend<T>(xs: seq<T>, ys: seq<T>, n: nat)
    ensures LastN(LastN(xs, n) + ys, n) == LastN(xs + ys, n)
  {
    if |xs| > n {
      var kept := LastN(xs, n);
      if |ys| <= n {
        assert kept + ys == (xs + ys)[|xs| - n..];
      } else {
        assert LastN(kept + ys, n) == ys[|ys| - n..];
        assert LastN(xs + ys, n) == ys[|ys| - n..];
      }
    }
  }

  lemma {:induction false} RingIsTail(chunks: seq<Text>, ring: seq<Text>)
    requires |ring| == |chunks| + 1 && ring[0] == []
    requires forall k | 0 <= k < |chunks| :: ring[k + 1] == Extended(ring[k], chunks[k])
    ensures ring[|chunks|] == LastN(Output(chunks), RING)
  {
    if chunks != [] {
      var n := |chunks| - 1;
      RingIsTail(chunks[..n], ring[..n + 1]);
      LastNAppend(Output(chunks[..n]), chunks[n], RING);
    }
  }

  /** A client that has seen the first `seen` bytes, and polls with the length it last adopted, gets
      exactly what it lacks if and only if the ring has dropped nothing yet or nothing is new. */
  lemma PollIsExactIff(output: Text, seen: nat)
    requires seen <= |output|
    ensures Delta(LastN(output, RING), if seen <= RING then seen else RING) == output[seen..]
       <==> |output| <= RING || seen == |output|
  {
  }

  datatype Event = Read(chunk: Text) | Poll

  /** `got` is what a polling client has put together, `since` the total it adopted last. */
  datatype Polling = Polling(output: Text, got: Text, since: nat)

  function PollStep(p: Polling, e: Event): Polling {
    match e
    case Read(chunk) => p.(output := p.output + chunk)
    case Poll =>
      var ring := LastN(p.output, RING);
      p.(got := p.got + Delta(ring, p.since), since := |ring|)
  }

  function PollRun(events: seq<Event>): Polling {
    if events == [] then Polling([], [], 0) else PollStep(PollRun(events[..|events| - 1]), events[|events| - 1])
  }

  /** Any schedule of reads and polls: the deltas join to the output as of the last poll, as long
      as no more than 200 000 bytes came. */
  lemma {:induction false} PollsJoinToOutput(events: seq<Event>)
    requires |PollRun(events).output| <= RING
    ensures var p := PollRun(events); p.since <= |p.output| && p.got == p.output[..p.since]
    ensures events != [] && events[|events| - 1].Poll? ==> PollRun(events).got == PollRun(events).output
  {
    if events != [] {
      var n := |events| - 1;
      var p := PollRun(events[..n]);
      PollsJoinToOutput(events[..n]);
      match events[n]
      case Read(chunk) => assert (p.output + chunk)[..p.since] == p.output[..p.since];
      case Poll => assert p.output[..p.since] + p.output[p.since..] == p.output;
    }
  }

  // ----- attach: subscribe first, then take the snapshot --------------------------------

  /** The one reader thread stores a chunk and then sends it; an attach subscribes and then copies
      the ring. Counters say how many chunks were stored and sent when each happened. */
  datatype Feed = Feed(chunks: seq<Text>, stored: nat, sent: nat, joined: Option<nat>, copied: Option<nat>)

  datatype Move = Store | Send | Join | Copy

  function FeedStep(f: Feed, m: Move): Feed {
    match m
    case Store => if f.stored == f.sent && f.stored < |f.chunks| then f.(stored := f.stored + 1) else f
    case Send => if f.sent < f.stored then f.(sent := f.sent + 1) else f
    case Join => if f.joined.None? then f.(joined := Some(f.sent)) else f
    case Copy => if f.joined.Some? && f.copied.None? then f.(copied := Some(f.stored)) else f
  }

  function FeedRun(chunks: seq<Text>, moves: seq<Move>): Feed {
    if moves == [] then Feed(chunks, 0, 0, None, None)
    else FeedStep(FeedRun(chunks, moves[..|moves| - 1]), moves[|moves| - 1])
  }

  lemma {:induction false} FeedInvariant(chunks: seq<Text>, moves: seq<Move>)
    ensures var f := FeedRun(chunks, moves);
            && f.chunks == chunks && f.sent <= f.stored <= f.sent + 1 && f.stored <= |chunks|
            && (f.joined.Some? ==> f.joined.value <= f.sent)
            && (f.copied.Some? ==> f.joined.Some? && f.joined.value <= f.copied.value <= f.stored)
  {
    if moves != [] { FeedInvariant(chunks, moves[..|moves| - 1]); }
  }

  lemma {:induction false} OutputAppend(a: seq<Text>, b: seq<Text>)
    ensures Output(a + b) == Output(a) + Output(b)
  {
    if b == [] {
      assert a + b == a;
    } else {
      var n := |b| - 1;
      OutputAppend(a, b[..n]);
      assert (a + b)[..|a + b| - 1] == a + b[..n];
    }
  }

  predicate Attached(f: Feed) {
    && f.joined.Some? && f.copied.Some?
    && f.joined.value <= f.copied.value <= |f.chunks|
    && f.joined.value <= f.sent <= |f.chunks|
  }

  /** What the attach copies. */
  function Snapshot(f: Feed): Text
    requires Attached(f)
  {
    LastN(Output(f.chunks[..f.copied.value]), RING)
  }

  /** The chunks received after the attach subscribed. */
  function Live(f: Feed): seq<Text>
    requires Attached(f)
  {
    f.chunks[f.joined.value..f.sent]
  }

  /** What the terminal should show: the output so far, from the first byte of the snapshot on. */
  function Due(f: Feed): Text
    requires Attached(f)
  {
    Snapshot(f) + if f.copied.value <= f.sent then Output(f.chunks[f.copied.value..f.sent]) else []
  }

  lemma DueIsOutput(f: Feed)
    requires Attached(f)
    ensures var before, all := Output(f.chunks[..f.copied.value]), Output(f.chunks[..Max(f.copied.value, f.sent)]);
            |before| <= |all| && Due(f) == all[|before| - |Snapshot(f)|..]
  {
    var c, n := f.copied.value, Max(f.copied.value, f.sent);
    assert f.chunks[..n] == f.chunks[..c] + f.chunks[c..n];
    OutputAppend(f.chunks[..c], f.chunks[c..n]);
  }

  function Max(a: nat, b: nat): nat {
    if a <= b then b else a
  }

  /** An attached terminal misses nothing: without the live chunks the snapshot already holds, it
      has the output so far from the snapshot's first byte on, in order. */
  lemma AttachHasNoGap(chunks: seq<Text>, moves: seq<Move>)
    requires FeedRun(chunks, moves).copied.Some?
    ensures var f := FeedRun(chunks, moves);
            && f.chunks == chunks && Attached(f)
            && var twice := f.copied.value - f.joined.value;
            && var shown := Snapshot(f) + Output(if twice <= |Live(f)| then Live(f)[twice..] else []);
            && var before, all := Output(chunks[..f.copied.value]), Output(chunks[..Max(f.copied.value, f.sent)]);
            && |Snapshot(f)| <= |before| <= |all|
            && shown == Due(f) == all[|before| - |Snapshot(f)|..]
  {
    FeedInvariant(chunks, moves);
    var f := FeedRun(chunks, moves);
    DueIsOutput(f);
    if f.copied.value <= f.sent {
      assert Live(f)[f.copied.value - f.joined.value..] == chunks[f.copied.value..f.sent];
    }
  }

  lemma {:induction false} OutputIsEmptyIff(chunks: seq<Text>)
    requires forall k | 0 <= k < |chunks| :: chunks[k] != []
    ensures Output(chunks) == [] <==> chunks == []
  {
    if chunks != [] { OutputIsEmptyIff(chunks[..|chunks| - 1]); }
  }

  /** It also shows nothing twice if and only if nothing was read between subscribing and copying,
      or nothing has come live yet. */
  lemma AttachIsExactIff(chunks: seq<Text>, moves: seq<Move>)
    requires FeedRun(chunks, moves).copied.Some? && forall k | 0 <= k < |chunks| :: chunks[k] != []
    ensures var f := FeedRun(chunks, moves);
            && Attached(f)
            && (Snapshot(f) + Output(Live(f)) == Due(f) <==> f.copied == f.joined || Live(f) == [])
  {
    AttachHasNoGap(chunks, moves);
    var f := FeedRun(chunks, moves);
    var twice := Min(f.copied.value - f.joined.value, |Live(f)|);
    var again, rest := Live(f)[..twice], Live(f)[twice..];
    assert Live(f) == again + rest;
    OutputAppend(again, rest);
    assert Due(f) == Snapshot(f) + Output(rest);
    OutputIsEmptyIff(again);
  }

  function Min(a: nat, b: nat): nat {
    if a <= b then a else b
  }
}
