/** The dispatch loop of a turn: joins streamed text before it is published and stored. */
module Coalesce {
  import opened Util
  import opened Events
  import opened EventLog

  const FLUSH_BYTES: nat := 64

  datatype Input = Timeout | Got(ev: AgentEvent)

  /** How the provider task ended. */
  datatype Outcome = Clean | Failed(message: Text) | Panicked(message: Text)

  datatype Buffers = Buffers(token: Text, thinking: Text, out: seq<AgentEvent>, terminal: bool)

  const START := Buffers([], [], [], false)

  predicate IsTerminal(ev: AgentEvent) {
    ev.Done? || ev.Error?
  }

  function FlushToken(b: Buffers): Buffers {
    if b.token == [] then b else b.(token := [], out := b.out + [Token(b.token)])
  }

  function FlushThinking(b: Buffers): Buffers {
    if b.thinking == [] then b else b.(thinking := [], out := b.out + [Thinking(b.thinking)])
  }

  function FlushBoth(b: Buffers): Buffers {
    FlushThinking(FlushToken(b))
  }

  function AddToken(b: Buffers, text: Text): Buffers {
    var d := FlushThinking(b).(token := b.token + text);
    if |d.token| >= FLUSH_BYTES then FlushToken(d) else d
  }

  function AddThinking(b: Buffers, text: Text): Buffers {
    var d := FlushToken(b).(thinking := b.thinking + text);
    if |d.thinking| >= FLUSH_BYTES then FlushThinking(d) else d
  }

  function PassOn(b: Buffers, ev: AgentEvent): Buffers {
    var c := FlushBoth(b);
    c.(out := c.out + [ev], terminal := c.terminal || IsTerminal(ev))
  }

  function Receive(b: Buffers, ev: AgentEvent): Buffers {
    match ev
    case Token(text) => AddToken(b, text)
    case Thinking(text) => AddThinking(b, text)
    case _ => PassOn(b, ev)
  }

  function Take(b: Buffers, input: Input): Buffers {
    if input.Timeout? then FlushBoth(b) else Receive(b, input.ev)
  }

  function Run(inputs: seq<Input>): Buffers {
    if inputs == [] then START else Take(Run(inputs[..|inputs| - 1]), inputs[|inputs| - 1])
  }

  /** The provider's events, without the timeouts between them. */
  function Received(inputs: seq<Input>): seq<AgentEvent> {
    if inputs == [] then []
    else
      var last := inputs[|inputs| - 1];
      Received(inputs[..|inputs| - 1]) + if last.Got? then [last.ev] else []
  }

  /** The event that ends the turn when the provider's own stream does not. */
  function Closing(outcome: Outcome, cancelled: bool, terminal: bool): seq<AgentEvent> {
    match outcome
    case Clean => if cancelled then [Error(Utf8("cancelled by user"))] else if terminal then [] else [Done(None)]
    case Failed(message) => [Error(message)]
    case Panicked(message) => [Error(Utf8("provider task panicked: ") + message)]
  }

  /** Everything one turn publishes. */
  function Published(inputs: seq<Input>, outcome: Outcome, cancelled: bool): seq<AgentEvent> {
    var b := FlushBoth(Run(inputs));
    b.out + Closing(outcome, cancelled, b.terminal)
  }

  predicate HasTerminal(evs: seq<AgentEvent>) {
    exists i | 0 <= i < |evs| :: IsTerminal(evs[i])
  }

  /** What published and buffered text say together. */
  function Said(b: Buffers): seq<AgentEvent> {
    Push(Push(Norm(b.out), Token(b.token)), Thinking(b.thinking))
  }

  predicate OneBuffer(b: Buffers) {
    b.token == [] || b.thinking == []
  }

  lemma FlushTokenSaysTheSame(b: Buffers)
    requires OneBuffer(b)
    ensures Said(FlushToken(b)) == Said(b) && OneBuffer(FlushToken(b))
  {
    NormSnoc(b.out, Token(b.token));
  }

  lemma FlushThinkingSaysTheSame(b: Buffers)
    requires OneBuffer(b)
    ensures Said(FlushThinking(b)) == Said(b) && OneBuffer(FlushThinking(b))
  {
    NormSnoc(b.out, Thinking(b.thinking));
  }

  lemma FlushBothSaysTheSame(b: Buffers)
    requires OneBuffer(b)
    ensures Said(FlushBoth(b)) == Said(b)
    ensures Norm(FlushBoth(b).out) == Said(b)
    ensures FlushBoth(b).token == [] && FlushBoth(b).thinking == []
  {
    FlushTokenSaysTheSame(b);
    FlushThinkingSaysTheSame(FlushToken(b));
  }

  lemma JoinToken(b: Buffers, text: Text)
    requires b.thinking == []
    ensures Said(b.(token := b.token + text)) == Push(Said(b), Token(text)) && OneBuffer(b.(token := b.token + text))
  {
    PushJoins(Norm(b.out), b.token, text);
  }

  lemma JoinThinking(b: Buffers, text: Text)
    requires b.token == []
    ensures Said(b.(thinking := b.thinking + text)) == Push(Said(b), Thinking(text))
        && OneBuffer(b.(thinking := b.thinking + text))
  {
    PushJoins(Norm(b.out), b.thinking, text);
  }

  lemma AddTokenPushes(b: Buffers, text: Text)
    requires OneBuffer(b)
    ensures OneBuffer(AddToken(b, text)) && Said(AddToken(b, text)) == Push(Said(b), Token(text))
  {
    var c := FlushThinking(b);
    FlushThinkingSaysTheSame(b);
    JoinToken(c, text);
    FlushTokenSaysTheSame(c.(token := b.token + text));
  }

  lemma AddThinkingPushes(b: Buffers, text: Text)
    requires OneBuffer(b)
    ensures OneBuffer(AddThinking(b, text)) && Said(AddThinking(b, text)) == Push(Said(b), Thinking(text))
  {
    var c := FlushToken(b);
    FlushTokenSaysTheSame(b);
    JoinThinking(c, text);
    FlushThinkingSaysTheSame(c.(thinking := b.thinking + text));
  }

  lemma PassOnPushes(b: Buffers, ev: AgentEvent)
    requires OneBuffer(b) && !IsText(ev)
    ensures OneBuffer(PassOn(b, ev)) && Said(PassOn(b, ev)) == Push(Said(b), ev)
  {
    FlushBothSaysTheSame(b);
    NormSnoc(FlushBoth(b).out, ev);
  }

  lemma ReceivePushes(b: Buffers, ev: AgentEvent)
    requires OneBuffer(b)
    ensures OneBuffer(Receive(b, ev)) && Said(Receive(b, ev)) == Push(Said(b), ev)
  {
    match ev
    case Token(text) => AddTokenPushes(b, text);
    case Thinking(text) => AddThinkingPushes(b, text);
    case _ => PassOnPushes(b, ev);
  }

  predicate Lean(b: Buffers) {
    |b.token| < FLUSH_BYTES && |b.thinking| < FLUSH_BYTES && NoEmptyText(b.out)
  }

  lemma FlushesStayLean(b: Buffers)
    requires NoEmptyText(b.out)
    ensures NoEmptyText(FlushToken(b).out) && NoEmptyText(FlushThinking(b).out)
  {
  }

  lemma TakeStaysLean(b: Buffers, input: Input)
    requires Lean(b)
    ensures Lean(Take(b, input))
  {
    FlushesStayLean(b);
    FlushesStayLean(FlushToken(b));
    if input.Got? {
      match input.ev
      case Token(text) => FlushesStayLean(FlushThinking(b).(token := b.token + text));
      case Thinking(text) => FlushesStayLean(FlushToken(b).(thinking := b.thinking + text));
      case _ =>
    }
  }

  lemma TakeTerminal(b: Buffers, input: Input)
    ensures Take(b, input).terminal == (b.terminal || (input.Got? && IsTerminal(input.ev)))
  {
  }

  /** Between events at most one buffer holds text, never 64 bytes or more, and published and
      buffered text together always say what the provider sent so far. */
  lemma {:induction false} CoalescerInvariant(inputs: seq<Input>)
    ensures OneBuffer(Run(inputs)) && Lean(Run(inputs))
    ensures Said(Run(inputs)) == Norm(Received(inputs))
    ensures Run(inputs).terminal <==> HasTerminal(Received(inputs))
  {
    if inputs != [] {
      var n := |inputs| - 1;
      var b, evs := Run(inputs[..n]), Received(inputs[..n]);
      CoalescerInvariant(inputs[..n]);
      TakeStaysLean(b, inputs[n]);
      TakeTerminal(b, inputs[n]);
      match inputs[n]
      case Timeout =>
        FlushBothSaysTheSame(b);
        assert Received(inputs) == evs;
      case Got(ev) =>
        ReceivePushes(b, ev);
        NormSnoc(evs, ev);
        TerminalSnoc(evs, ev);
    }
  }

  lemma TerminalSnoc(evs: seq<AgentEvent>, ev: AgentEvent)
    ensures HasTerminal(evs + [ev]) <==> HasTerminal(evs) || IsTerminal(ev)
  {
    assert (evs + [ev])[|evs|] == ev;
    if HasTerminal(evs) {
      var i :| 0 <= i < |evs| && IsTerminal(evs[i]);
      assert (evs + [ev])[i] == evs[i];
    }
  }

  /** Coalescing keeps the meaning of a turn: wherever the timeouts fall, what is published says
      exactly what the provider sent, in order, and then how the turn ended. */
  lemma PublishedMeansReceived(inputs: seq<Input>, outcome: Outcome, cancelled: bool)
    ensures Norm(Published(inputs, outcome, cancelled))
         == Norm(Received(inputs) + Closing(outcome, cancelled, HasTerminal(Received(inputs))))
  {
    var b, evs := FlushBoth(Run(inputs)), Received(inputs);
    FlushedMeansReceived(inputs);
    SayAlike(b.out, evs, Closing(outcome, cancelled, b.terminal));
  }

  lemma FlushedMeansReceived(inputs: seq<Input>)
    ensures Norm(FlushBoth(Run(inputs)).out) == Norm(Received(inputs))
    ensures FlushBoth(Run(inputs)).terminal == HasTerminal(Received(inputs))
    ensures NoEmptyText(FlushBoth(Run(inputs)).out)
  {
    CoalescerInvariant(inputs);
    FlushBothSaysTheSame(Run(inputs));
    TakeStaysLean(Run(inputs), Timeout);
  }

  /** No published event carries an empty text. */
  lemma NothingEmptyPublished(inputs: seq<Input>, outcome: Outcome, cancelled: bool)
    ensures NoEmptyText(Published(inputs, outcome, cancelled))
  {
    FlushedMeansReceived(inputs);
  }

  /** Streams that say the same still do after the same last event. */
  lemma SayAlike(a: seq<AgentEvent>, b: seq<AgentEvent>, closing: seq<AgentEvent>)
    requires Norm(a) == Norm(b) && |closing| <= 1
    ensures Norm(a + closing) == Norm(b + closing)
  {
    if closing == [] {
      assert a + closing == a && b + closing == b;
    } else {
      assert closing == [closing[0]];
      NormSnoc(a, closing[0]);
      NormSnoc(b, closing[0]);
    }
  }

  lemma ClosingShows(evs: seq<AgentEvent>, closing: seq<AgentEvent>)
    requires |closing| <= 1 && forall k | 0 <= k < |closing| :: !IsText(closing[k])
    ensures Norm(evs + closing) == Norm(evs) <==> closing == []
  {
    if closing == [] {
      assert evs + closing == evs;
    } else {
      assert closing == [closing[0]];
      NormSnoc(evs, closing[0]);
      assert |Push(Norm(evs), closing[0])| == |Norm(evs)| + 1;
    }
  }

  /** The loop adds nothing of its own exactly when the turn ended cleanly, was not cancelled, and
      the provider said so itself. */
  lemma NothingAddedIff(inputs: seq<Input>, outcome: Outcome, cancelled: bool)
    ensures Norm(Published(inputs, outcome, cancelled)) == Norm(Received(inputs))
       <==> outcome.Clean? && !cancelled && HasTerminal(Received(inputs))
  {
    var terminal := HasTerminal(Received(inputs));
    PublishedMeansReceived(inputs, outcome, cancelled);
    ClosingEmptyIff(outcome, cancelled, terminal);
    ClosingShows(Received(inputs), Closing(outcome, cancelled, terminal));
  }

  lemma ClosingEmptyIff(outcome: Outcome, cancelled: bool, terminal: bool)
    ensures Closing(outcome, cancelled, terminal) == [] <==> outcome.Clean? && !cancelled && terminal
    ensures |Closing(outcome, cancelled, terminal)| <= 1
    ensures forall k | 0 <= k < |Closing(outcome, cancelled, terminal)| ::
        !IsText(Closing(outcome, cancelled, terminal)[k])
  {
  }

  /** Every turn is closed by a terminal event, whatever the provider did. */
  lemma EveryTurnEnds(inputs: seq<Input>, outcome: Outcome, cancelled: bool)
    ensures HasTerminal(Published(inputs, outcome, cancelled))
  {
    CoalescerInvariant(inputs);
    var b := FlushBoth(Run(inputs));
    var closing := Closing(outcome, cancelled, b.terminal);
    if closing == [] {
      TerminalPublished(inputs);
      assert b.out + closing == b.out;
    } else {
      assert (b.out + closing)[|b.out|] == closing[0];
    }
  }

  /** The events say what was received, and then comes `last`. */
  ghost predicate EndsWith(published: seq<AgentEvent>, received: seq<AgentEvent>, last: AgentEvent) {
    && published != [] && published[|published| - 1] == last
    && Norm(published[..|published| - 1]) == Norm(received)
  }

  /** How each kind of end shows: a provider's error or panic with its message, a cancelled turn as
      cancelled, a clean end without a terminal event as done, and otherwise nothing more. */
  lemma EndingShows(inputs: seq<Input>, outcome: Outcome, cancelled: bool)
    ensures var evs, got := Published(inputs, outcome, cancelled), Received(inputs);
            && (outcome.Failed? ==> EndsWith(evs, got, Error(outcome.message)))
            && (outcome.Panicked? ==> EndsWith(evs, got, Error(Utf8("provider task panicked: ") + outcome.message)))
            && (outcome.Clean? && cancelled ==> EndsWith(evs, got, Error(Utf8("cancelled by user"))))
            && (outcome.Clean? && !cancelled && !HasTerminal(got) ==> EndsWith(evs, got, Done(None)))
            && (outcome.Clean? && !cancelled && HasTerminal(got) ==> Norm(evs) == Norm(got))
  {
    FlushedMeansReceived(inputs);
    var b := FlushBoth(Run(inputs));
    assert forall ev :: (b.out + [ev])[..|b.out|] == b.out;
    assert b.out + [] == b.out;
  }

  // ----- how well texts are joined ----------------------------------------------------------

  function TextLen(ev: AgentEvent): nat {
    if IsText(ev) then |ev.text| else 0
  }

  predicate SameKind(a: AgentEvent, b: AgentEvent) {
    (a.Token? && b.Token?) || (a.Thinking? && b.Thinking?)
  }

  predicate FullAt(evs: seq<AgentEvent>, k: nat)
    requires k + 1 < |evs|
  {
    SameKind(evs[k], evs[k + 1]) ==> TextLen(evs[k]) >= FLUSH_BYTES
  }

  /** A text followed by another of its kind has at least 64 bytes. */
  predicate WellJoined(evs: seq<AgentEvent>) {
    forall k: nat | k + 1 < |evs| :: FullAt(evs, k)
  }

  /** The last text is short only because the other kind interrupted it. */
  predicate Interrupted(b: Buffers) {
    b.out != [] && IsText(b.out[|b.out| - 1]) && TextLen(b.out[|b.out| - 1]) < FLUSH_BYTES ==>
      if b.out[|b.out| - 1].Token? then b.thinking != [] else b.token != []
  }

  lemma JoinedSnoc(evs: seq<AgentEvent>, ev: AgentEvent)
    requires WellJoined(evs)
    requires evs != [] && SameKind(evs[|evs| - 1], ev) ==> TextLen(evs[|evs| - 1]) >= FLUSH_BYTES
    ensures WellJoined(evs + [ev])
  {
    forall k: nat | k + 1 < |evs + [ev]| ensures FullAt(evs + [ev], k) {
      if k + 1 < |evs| { assert FullAt(evs, k); }
    }
  }

  lemma FlushesJoined(b: Buffers)
    requires OneBuffer(b) && WellJoined(b.out) && Interrupted(b)
    ensures WellJoined(FlushToken(b).out) && WellJoined(FlushThinking(b).out) && WellJoined(FlushBoth(b).out)
  {
    if b.token != [] { JoinedSnoc(b.out, Token(b.token)); }
    if b.thinking != [] { JoinedSnoc(b.out, Thinking(b.thinking)); }
  }

  predicate Tidy(b: Buffers) {
    OneBuffer(b) && WellJoined(b.out) && Interrupted(b)
  }

  lemma TokenJoined(b: Buffers, text: Text)
    requires Tidy(b) && text != []
    ensures WellJoined(AddToken(b, text).out) && Interrupted(AddToken(b, text))
  {
    FlushesJoined(b);
    var c := FlushThinking(b);
    if |c.token + text| >= FLUSH_BYTES { JoinedSnoc(c.out, Token(c.token + text)); }
  }

  lemma ThinkingJoined(b: Buffers, text: Text)
    requires Tidy(b) && text != []
    ensures WellJoined(AddThinking(b, text).out) && Interrupted(AddThinking(b, text))
  {
    FlushesJoined(b);
    var c := FlushToken(b);
    if |c.thinking + text| >= FLUSH_BYTES { JoinedSnoc(c.out, Thinking(c.thinking + text)); }
  }

  lemma OtherJoined(b: Buffers, ev: AgentEvent)
    requires Tidy(b) && !IsText(ev)
    ensures WellJoined(PassOn(b, ev).out) && Interrupted(PassOn(b, ev))
  {
    FlushesJoined(b);
    JoinedSnoc(FlushBoth(b).out, ev);
  }

  lemma TakeJoined(b: Buffers, ev: AgentEvent)
    requires Tidy(b) && !IsEmptyText(ev)
    ensures WellJoined(Receive(b, ev).out) && Interrupted(Receive(b, ev))
  {
    match ev
    case Token(text) => TokenJoined(b, text);
    case Thinking(text) => ThinkingJoined(b, text);
    case _ => OtherJoined(b, ev);
  }

  lemma {:induction false} RunJoined(inputs: seq<Input>)
    requires NoEmptyText(Received(inputs)) && forall k | 0 <= k < |inputs| :: inputs[k].Got?
    ensures WellJoined(Run(inputs).out) && Interrupted(Run(inputs))
  {
    if inputs != [] {
      var n := |inputs| - 1;
      ReceivedAll(inputs[..n]);
      assert Received(inputs) == Received(inputs[..n]) + [inputs[n].ev];
      assert forall k | 0 <= k < n :: Received(inputs)[k] == Received(inputs[..n])[k];
      assert Received(inputs)[n] == inputs[n].ev;
      RunJoined(inputs[..n]);
      CoalescerInvariant(inputs[..n]);
      TakeJoined(Run(inputs[..n]), inputs[n].ev);
    }
  }

  lemma {:induction false} ReceivedAll(inputs: seq<Input>)
    requires forall k | 0 <= k < |inputs| :: inputs[k].Got?
    ensures |Received(inputs)| == |inputs|
  {
    if inputs != [] { ReceivedAll(inputs[..|inputs| - 1]); }
  }

  /** A stream that never pauses is published in texts of at least 64 bytes, but for the last one
      before the other kind of text, another event, or the end. */
  lemma TextsAreJoined(inputs: seq<Input>, outcome: Outcome, cancelled: bool)
    requires NoEmptyText(Received(inputs)) && forall k | 0 <= k < |inputs| :: inputs[k].Got?
    ensures WellJoined(Published(inputs, outcome, cancelled))
  {
    RunJoined(inputs);
    CoalescerInvariant(inputs);
    FlushesJoined(Run(inputs));
    var b := FlushBoth(Run(inputs));
    ClosingEmptyIff(outcome, cancelled, b.terminal);
    ClosingJoined(b.out, Closing(outcome, cancelled, b.terminal));
  }

  lemma ClosingJoined(evs: seq<AgentEvent>, closing: seq<AgentEvent>)
    requires WellJoined(evs) && |closing| <= 1 && forall k | 0 <= k < |closing| :: !IsText(closing[k])
    ensures WellJoined(evs + closing)
  {
    if closing == [] {
      assert evs + closing == evs;
    } else {
      JoinedSnoc(evs, closing[0]);
      assert closing == [closing[0]];
    }
  }

  /** A pause publishes everything received so far. */
  lemma PausePublishesAll(inputs: seq<Input>)
    requires inputs != [] && inputs[|inputs| - 1].Timeout?
    ensures Norm(Run(inputs).out) == Norm(Received(inputs)) && Run(inputs).token == [] && Run(inputs).thinking == []
  {
    RunPauses(inputs);
    FlushedMeansReceived(inputs[..|inputs| - 1]);
    BothFlushed(Run(inputs[..|inputs| - 1]));
  }

  lemma RunPauses(inputs: seq<Input>)
    requires inputs != [] && inputs[|inputs| - 1].Timeout?
    ensures Run(inputs) == FlushBoth(Run(inputs[..|inputs| - 1]))
    ensures Received(inputs) == Received(inputs[..|inputs| - 1])
  {
    assert Received(inputs[..|inputs| - 1]) + [] == Received(inputs[..|inputs| - 1]);
  }

  lemma BothFlushed(b: Buffers)
    ensures FlushBoth(b).token == [] && FlushBoth(b).thinking == []
  {
  }

  lemma {:induction false} TerminalPublished(inputs: seq<Input>)
    requires Run(inputs).terminal
    ensures HasTerminal(Run(inputs).out) && HasTerminal(FlushBoth(Run(inputs)).out)
  {
    var n := |inputs| - 1;
    var b := Run(inputs[..n]);
    if b.terminal { TerminalPublished(inputs[..n]); }
    TerminalKept(b);
    match inputs[n]
    case Timeout =>
    case Got(ev) =>
      match ev
      case Token(text) => TerminalKept(FlushThinking(b).(token := b.token + text));
      case Thinking(text) => TerminalKept(FlushToken(b).(thinking := b.thinking + text));
      case _ => TerminalSnoc(FlushBoth(b).out, ev);
    TerminalKept(Run(inputs));
  }

  lemma TerminalKept(b: Buffers)
    ensures HasTerminal(FlushToken(b).out) <==> HasTerminal(b.out)
    ensures HasTerminal(FlushThinking(b).out) <==> HasTerminal(b.out)
    ensures HasTerminal(FlushBoth(b).out) <==> HasTerminal(b.out)
  {
    TerminalSnoc(b.out, Token(b.token));
    TerminalSnoc(b.out, Thinking(b.thinking));
    TerminalSnoc(FlushToken(b).out, Thinking(b.thinking));
  }

  function Held(b: Buffers): nat {
    (if b.token == [] then 0 else 1) + if b.thinking == [] then 0 else 1
  }

  lemma TakeWeight(b: Buffers, input: Input)
    requires OneBuffer(b)
    ensures |Take(b, input).out| + Held(Take(b, input)) <= |b.out| + Held(b) + if input.Got? then 1 else 0
  {
  }

  /** A turn never publishes more events than it received, but for the closing one. */
  lemma NeverAmplifies(inputs: seq<Input>, outcome: Outcome, cancelled: bool)
    ensures |Published(inputs, outcome, cancelled)| <= |Received(inputs)| + 1
    ensures outcome.Clean? && !cancelled && HasTerminal(Received(inputs)) ==>
              |Published(inputs, outcome, cancelled)| <= |Received(inputs)|
  {
    RunNeverAmplifies(inputs);
    CoalescerInvariant(inputs);
    ClosingEmptyIff(outcome, cancelled, HasTerminal(Received(inputs)));
  }

  lemma {:induction false} RunNeverAmplifies(inputs: seq<Input>)
    ensures |Run(inputs).out| + Held(Run(inputs)) <= |Received(inputs)|
  {
    if inputs != [] {
      var n := |inputs| - 1;
      RunNeverAmplifies(inputs[..n]);
      CoalescerInvariant(inputs[..n]);
      TakeWeight(Run(inputs[..n]), inputs[n]);
    }
  }

  /** One turn in flight. `published` is what live subscribers saw, `log` what the prompt keeps. */
  class Turn {
    var token: Text
    var thinking: Text
    var terminal: bool
    var published: seq<AgentEvent>
    const log: PromptLog

    constructor ()
      ensures fresh(log)
      ensures View() == START && Agree()
    {
      token, thinking, terminal, published := [], [], false, [];
      log := new PromptLog();
    }

    function View(): Buffers
      reads this
    {
      Buffers(token, thinking, published, terminal)
    }

    /** The prompt's log is the bounded form of what was published. */
    predicate Agree()
      reads this, log
    {
      log.events == Buffered(published)
    }

    method Emit(ev: AgentEvent)
      requires Agree()
      modifies this`published, log
      ensures Agree() && published == old(published) + [ev]
    {
      assert (published + [ev])[..|published|] == published;
      published := published + [ev];
      log.AppendEvent(ev);
    }

    method FlushTokens()
      requires Agree()
      modifies this, log
      ensures Agree() && View() == FlushToken(old(View()))
    {
      if |token| == 0 { return; }
      var text := token;
      token := [];
      Emit(Token(text));
    }

    method FlushThoughts()
      requires Agree()
      modifies this, log
      ensures Agree() && View() == FlushThinking(old(View()))
    {
      if |thinking| == 0 { return; }
      var text := thinking;
      thinking := [];
      Emit(Thinking(text));
    }

    method HandleToken(text: Text)
      requires Agree()
      modifies this, log
      ensures Agree() && View() == AddToken(old(View()), text)
    {
      FlushThoughts();
      token := token + text;
      if |token| >= FLUSH_BYTES { FlushTokens(); }
    }

    method HandleThinking(text: Text)
      requires Agree()
      modifies this, log
      ensures Agree() && View() == AddThinking(old(View()), text)
    {
      FlushTokens();
      thinking := thinking + text;
      if |thinking| >= FLUSH_BYTES { FlushThoughts(); }
    }

    method HandleOther(ev: AgentEvent)
      requires Agree()
      modifies this, log
      ensures Agree() && View() == PassOn(old(View()), ev)
    {
      FlushTokens();
      FlushThoughts();
      if ev.Done? || ev.Error? { terminal := true; }
      Emit(ev);
    }

    method Handle(ev: AgentEvent)
      requires Agree()
      modifies this, log
      ensures Agree() && View() == Receive(old(View()), ev)
    {
      match ev
      case Token(text) =>
        HandleToken(text);
      case Thinking(text) =>
        HandleThinking(text);
      case _ =>
        HandleOther(ev);
    }

    /** The whole turn: `inputs` is what the channel yields, timeouts included, until it closes. */
    method Dispatch(inputs: seq<Input>, outcome: Outcome, cancelled: bool)
      requires Agree() && View() == START
      modifies this, log
      ensures Agree() && published == Published(inputs, outcome, cancelled)
    {
      for n := 0 to |inputs|
        invariant Agree() && View() == Run(inputs[..n])
      {
        assert inputs[..n + 1][..n] == inputs[..n];
        match inputs[n]
        case Timeout =>
          FlushTokens();
          FlushThoughts();
        case Got(ev) =>
          Handle(ev);
      }
      assert inputs[..|inputs|] == inputs;
      FlushTokens();
      FlushThoughts();
      match outcome
      case Clean =>
        if cancelled {
          Emit(Error(Utf8("cancelled by user")));
        } else if !terminal {
          Emit(Done(None));
        }
      case Failed(message) =>
        Emit(Error(message));
      case Panicked(message) =>
        Emit(Error(Utf8("provider task panicked: ") + message));
    }
  }
}
