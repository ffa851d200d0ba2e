/** The whole stream: CLI frames, adapter, dispatch loop, bounded log, resume context. */
module Pipeline {
  import opened Util
  import opened Events
  import opened Translate
  import opened Coalesce
  import opened EventLog
  import opened Context
  import ChatStore
  import Paging

  /** What the adapter adds when the CLI process ends. */
  function Exit(success: bool, errored: bool, message: Text): seq<AgentEvent> {
    if success then [Done(None)] else if errored then [] else [Error(message)]
  }

  predicate Quiet(evs: seq<AgentEvent>) {
    forall i | 0 <= i < |evs| :: !IsText(evs[i]) && !evs[i].Truncated?
  }

  lemma {:induction false} QuietIsSilent(evs: seq<AgentEvent>)
    requires Quiet(evs)
    ensures TokenText(evs) == []
  {
    if evs != [] { QuietIsSilent(evs[..|evs| - 1]); }
  }

  lemma {:induction false} RunKeepsReal(inputs: seq<Input>)
    requires NoneTruncated(Received(inputs))
    ensures NoneTruncated(Run(inputs).out)
  {
    if inputs != [] {
      var n := |inputs| - 1;
      assert forall i | 0 <= i < |Received(inputs[..n])| :: Received(inputs)[i] == Received(inputs[..n])[i];
      RunKeepsReal(inputs[..n]);
      if inputs[n].Got? { assert Received(inputs)[|Received(inputs)| - 1] == inputs[n].ev; }
      TakeKeepsReal(Run(inputs[..n]), inputs[n]);
    }
  }

  lemma TakeKeepsReal(b: Buffers, input: Input)
    requires NoneTruncated(b.out)
    requires input.Got? ==> !input.ev.Truncated?
    ensures NoneTruncated(Take(b, input).out)
  {
    FlushesKeepReal(b);
    FlushesKeepReal(FlushToken(b));
    if input.Got? {
      match input.ev
      case Token(text) => FlushesKeepReal(FlushThinking(b).(token := b.token + text));
      case Thinking(text) => FlushesKeepReal(FlushToken(b).(thinking := b.thinking + text));
      case _ =>
    }
  }

  lemma FlushesKeepReal(b: Buffers)
    requires NoneTruncated(b.out)
    ensures NoneTruncated(FlushToken(b).out) && NoneTruncated(FlushThinking(b).out)
  {
  }

  lemma PublishedIsReal(inputs: seq<Input>, outcome: Outcome, cancelled: bool)
    requires NoneTruncated(Received(inputs))
    ensures NoneTruncated(Published(inputs, outcome, cancelled))
  {
    RunKeepsReal(inputs);
    TakeKeepsReal(Run(inputs), Timeout);
  }

  /** The reply a prompt publishes is the reply the provider sent. */
  lemma PublishedReply(inputs: seq<Input>, outcome: Outcome, cancelled: bool)
    ensures TokenText(Published(inputs, outcome, cancelled)) == TokenText(Received(inputs))
  {
    var closing := Closing(outcome, cancelled, HasTerminal(Received(inputs)));
    PublishedMeansReceived(inputs, outcome, cancelled);
    ClosingIsQuiet(outcome, cancelled, HasTerminal(Received(inputs)));
    ReplyWithoutClosing(Published(inputs, outcome, cancelled), Received(inputs), closing);
  }

  lemma ClosingIsQuiet(outcome: Outcome, cancelled: bool, terminal: bool)
    ensures Quiet(Closing(outcome, cancelled, terminal))
  {
  }

  lemma ReplyWithoutClosing(published: seq<AgentEvent>, received: seq<AgentEvent>, closing: seq<AgentEvent>)
    requires Norm(published) == Norm(received + closing) && Quiet(closing)
    ensures TokenText(published) == TokenText(received)
  {
    SameReply(published, received + closing);
    TokenTextAppend(received, closing);
    QuietIsSilent(closing);
  }

  lemma SameReply(a: seq<AgentEvent>, b: seq<AgentEvent>)
    requires Norm(a) == Norm(b)
    ensures TokenText(a) == TokenText(b)
  {
    NormKeeps(a);
    NormKeeps(b);
  }

  /** From the CLI to the stored log. A turn that writes one part keeps, in the log, exactly the
      last cumulative text of that part if and only if each text extended the one before, for any
      other frames, any timeouts and any end of the turn, as long as no token was evicted. */
  lemma StoredReplyIsLastTextIff(frames: seq<Frame>, p: Text, tail: seq<AgentEvent>,
      inputs: seq<Input>, outcome: Outcome, cancelled: bool)
    requires OnlyPart(frames, p) && Quiet(tail)
    requires Received(inputs) == Emitted(frames) + tail
    requires var log := Published(inputs, outcome, cancelled); TokenText(log[..Evicted(log)]) == []
    ensures TokenText(Buffered(Published(inputs, outcome, cancelled))) == LastText(frames, p)
       <==> Cumulative(frames, p)
  {
    var log := Published(inputs, outcome, cancelled);
    EmittedIsReal(frames);
    PublishedIsReal(inputs, outcome, cancelled);
    BufferIsBounded(log);
    BoundedReply(log);
    PublishedReply(inputs, outcome, cancelled);
    TokenTextAppend(Emitted(frames), tail);
    QuietIsSilent(tail);
    OnePartReply(frames, p);
    DeltasJoinToLastTextIff(frames, p);
  }

  lemma ExitIsQuiet(success: bool, errored: bool, message: Text)
    ensures Quiet(Exit(success, errored, message))
    ensures !success && errored <==> !HasTerminal(Exit(success, errored, message))
  {
    if success { assert IsTerminal(Exit(success, errored, message)[0]); }
    else if !errored { assert IsTerminal(Exit(success, errored, message)[0]); }
  }

  /** All the adapter sends in a turn whose CLI ran to its end. */
  function Sent(frames: seq<Frame>, success: bool, message: Text): seq<AgentEvent> {
    Emitted(frames) + Exit(success, HasError(Emitted(frames)), message)
  }

  /** A successful exit ends the turn as done; a failed one ends it with the exit's error, unless the
      stream already carried an error, and then adds nothing. */
  lemma SentEnds(frames: seq<Frame>, success: bool, message: Text)
    ensures var sent, printed := Sent(frames, success, message), Emitted(frames);
            var reported := exists k | 0 <= k < |frames| :: frames[k].Failure?;
            && printed <= sent
            && (success ==> sent == printed + [Done(None)])
            && (!success && !reported ==> sent == printed + [Error(message)])
            && (!success && reported ==> sent == printed && HasError(sent))
  {
    ReasoningAndErrorsSurface(frames);
  }

  /** Whatever the CLI prints and however it exits, the adapter ends the turn itself: the dispatch
      loop adds nothing unless the turn is cancelled or the provider task fails. */
  lemma AdapterEndsTurn(frames: seq<Frame>, success: bool, message: Text,
      inputs: seq<Input>, outcome: Outcome, cancelled: bool)
    requires Received(inputs) == Sent(frames, success, message)
    ensures Norm(Published(inputs, outcome, cancelled)) == Norm(Sent(frames, success, message))
       <==> outcome.Clean? && !cancelled
  {
    var sent, errored := Emitted(frames), HasError(Emitted(frames));
    var exit := Exit(success, errored, message);
    ExitIsQuiet(success, errored, message);
    if HasTerminal(exit) {
      var i :| 0 <= i < |exit| && IsTerminal(exit[i]);
      assert IsTerminal((sent + exit)[|sent| + i]);
    } else {
      var i :| 0 <= i < |sent| && sent[i].Error?;
      assert IsTerminal((sent + exit)[i]);
    }
    NothingAddedIff(inputs, outcome, cancelled);
  }

  /** How many events of a log the windowed view leaves out. */
  function Unseen(log: seq<AgentEvent>): (k: nat)
    ensures k <= |log|
  {
    if |log| <= Paging.EVENTS_PER_PROMPT then 0 else |log| - Paging.EVENTS_PER_PROMPT
  }

  /** The view shows the end of the whole log, bounded or not. */
  lemma ShownIsTail(log: seq<AgentEvent>, rec: ChatStore.PromptRecord)
    requires NoneTruncated(log) && rec.events == Buffered(log)
    ensures Paging.Shown(rec).events == log[Unseen(log)..]
  {
    BufferIsBounded(log);
  }

  /** The shown reply is the published one exactly when no text was among the events left out. */
  lemma ShownReplyIff(log: seq<AgentEvent>, rec: ChatStore.PromptRecord)
    requires NoneTruncated(log) && rec.events == Buffered(log)
    ensures TokenText(Paging.Shown(rec).events) == TokenText(log) <==> TokenText(log[..Unseen(log)]) == []
  {
    ShownIsTail(log, rec);
    assert log == log[..Unseen(log)] + log[Unseen(log)..];
    TokenTextAppend(log[..Unseen(log)], log[Unseen(log)..]);
  }

  lemma EvictedIsUnseen(log: seq<AgentEvent>)
    requires TokenText(log[..Unseen(log)]) == []
    ensures TokenText(log[..Evicted(log)]) == []
  {
    var k, n := Evicted(log), Unseen(log);
    assert log[..n] == log[..k] + log[k..n];
    TokenTextAppend(log[..k], log[k..n]);
  }

  /** From the CLI to the screen: the reply the windowed view shows of a turn that writes one part is
      the last cumulative text of that part if and only if each text extended the one before, for any
      end of the CLI and of the turn, as long as no text is among the events left out. */
  lemma ShownReplyIsLastTextIff(frames: seq<Frame>, p: Text, success: bool, message: Text,
      inputs: seq<Input>, outcome: Outcome, cancelled: bool, rec: ChatStore.PromptRecord)
    requires OnlyPart(frames, p) && Received(inputs) == Sent(frames, success, message)
    requires var log := Published(inputs, outcome, cancelled);
             rec.events == Buffered(log) && TokenText(log[..Unseen(log)]) == []
    ensures TokenText(Paging.Shown(rec).events) == LastText(frames, p) <==> Cumulative(frames, p)
  {
    var log, exit := Published(inputs, outcome, cancelled), Exit(success, HasError(Emitted(frames)), message);
    ExitIsQuiet(success, HasError(Emitted(frames)), message);
    EvictedIsUnseen(log);
    StoredReplyIsLastTextIff(frames, p, exit, inputs, outcome, cancelled);
    EmittedIsReal(frames);
    PublishedIsReal(inputs, outcome, cancelled);
    BufferIsBounded(log);
    BoundedReply(log);
    ShownReplyIff(log, rec);
  }

  /** One past turn as it ran. */
  datatype Past = Past(content: Text, inputs: seq<Input>, outcome: Outcome, cancelled: bool)

  function StoredLog(t: Past): seq<AgentEvent> {
    Buffered(Published(t.inputs, t.outcome, t.cancelled))
  }

  function Stored(ts: seq<Past>): seq<Prompt> {
    seq(|ts|, i requires 0 <= i < |ts| => Prompt(ts[i].content, StoredLog(ts[i])))
  }

  /** The same turns, as if every event had been kept uncut. */
  function Uncut(ts: seq<Past>): seq<Prompt> {
    seq(|ts|, i requires 0 <= i < |ts| =>
      Prompt(ts[i].content,
             Received(ts[i].inputs) + Closing(ts[i].outcome, ts[i].cancelled, HasTerminal(Received(ts[i].inputs)))))
  }

  predicate Fits(t: Past) {
    NoneTruncated(Received(t.inputs)) && |Published(t.inputs, t.outcome, t.cancelled)| <= MAX_EVENTS
  }

  /** A resumed chat gets the context it would get had no text ever been cut, joined or timed. */
  lemma ResumeContextIsFaithful(trim: Text -> Text, ts: seq<Past>, max: nat)
    requires forall i | 0 <= i < |ts| :: Fits(ts[i])
    ensures RecentContext(trim, Stored(ts), max) == RecentContext(trim, Uncut(ts), max)
  {
    forall i | 0 <= i < |ts| ensures SaysTheSame(Stored(ts)[i], Uncut(ts)[i]) {
      var t := ts[i];
      assert Fits(t);
      PublishedIsReal(t.inputs, t.outcome, t.cancelled);
      BufferIsBounded(Published(t.inputs, t.outcome, t.cancelled));
      PublishedMeansReceived(t.inputs, t.outcome, t.cancelled);
    }
    ContextIgnoresChunking(trim, Stored(ts), Uncut(ts), max);
  }
}
