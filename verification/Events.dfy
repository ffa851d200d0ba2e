/** Streaming events of an agent turn, and what a reader takes from a sequence of them. */
module Events {
  import opened Util

  newtype byte = x: int | 0 <= x < 256

  /** UTF-8 text; lengths count bytes, as `String::len` does. */
  type Text = seq<byte>

  /** The bytes of a message spelled in ASCII. */
  function Utf8(s: string): Text {
    seq(|s|, i requires 0 <= i < |s| => (s[i] as int % 256) as byte)
  }

  /** JSON arguments and results appear as their serialization. */
  datatype AgentEvent =
    | SessionStart(sessionId: Text)
    | Token(text: Text)
    | Thinking(text: Text)
    | ToolCall(name: Text, args: Text, id: Option<Text>)
    | ToolResult(name: Text, result: Text, id: Option<Text>)
    | Done(summary: Option<Text>)
    | Error(message: Text)
    | Truncated(dropped: nat)

  predicate IsText(ev: AgentEvent) {
    ev.Token? || ev.Thinking?
  }

  predicate IsEmptyText(ev: AgentEvent) {
    (ev.Token? || ev.Thinking?) && ev.text == []
  }

  /** The assistant's reply: all token texts in order. */
  function TokenText(evs: seq<AgentEvent>): Text {
    if evs == [] then []
    else TokenText(evs[..|evs| - 1]) + if evs[|evs| - 1].Token? then evs[|evs| - 1].text else []
  }

  function ThinkingText(evs: seq<AgentEvent>): Text {
    if evs == [] then []
    else ThinkingText(evs[..|evs| - 1]) + if evs[|evs| - 1].Thinking? then evs[|evs| - 1].text else []
  }

  /** Everything that is not streamed text, in order. */
  function Others(evs: seq<AgentEvent>): seq<AgentEvent> {
    if evs == [] then []
    else Others(evs[..|evs| - 1]) + if IsText(evs[|evs| - 1]) then [] else [evs[|evs| - 1]]
  }

  /** Appends an event to a normal form: an empty text vanishes, a text joins a preceding
      text of its kind. */
  function Push(acc: seq<AgentEvent>, ev: AgentEvent): seq<AgentEvent> {
    if IsEmptyText(ev) then acc
    else if acc == [] then [ev]
    else
      var last := acc[|acc| - 1];
      if ev.Token? && last.Token? then acc[..|acc| - 1] + [Token(last.text + ev.text)]
      else if ev.Thinking? && last.Thinking? then acc[..|acc| - 1] + [Thinking(last.text + ev.text)]
      else acc + [ev]
  }

  /** What a stream says, whatever the chunking: empty texts dropped, neighbouring texts of
      one kind joined. */
  function Norm(evs: seq<AgentEvent>): seq<AgentEvent> {
    if evs == [] then [] else Push(Norm(evs[..|evs| - 1]), evs[|evs| - 1])
  }

  lemma NormSnoc(evs: seq<AgentEvent>, ev: AgentEvent)
    ensures Norm(evs + [ev]) == Push(Norm(evs), ev)
    ensures TokenText(evs + [ev]) == TokenText(evs) + if ev.Token? then ev.text else []
    ensures ThinkingText(evs + [ev]) == ThinkingText(evs) + if ev.Thinking? then ev.text else []
    ensures Others(evs + [ev]) == Others(evs) + if IsText(ev) then [] else [ev]
  {
    assert (evs + [ev])[..|evs|] == evs;
  }

  lemma {:induction false} TokenTextAppend(a: seq<AgentEvent>, b: seq<AgentEvent>)
    ensures TokenText(a + b) == TokenText(a) + TokenText(b)
  {
    if b == [] {
      assert a + b == a;
    } else {
      var n := |b| - 1;
      assert (a + b)[..|a + b| - 1] == a + b[..n];
      TokenTextAppend(a, b[..n]);
    }
  }

  lemma PushJoins(acc: seq<AgentEvent>, x: Text, y: Text)
    ensures Push(Push(acc, Token(x)), Token(y)) == Push(acc, Token(x + y))
    ensures Push(Push(acc, Thinking(x)), Thinking(y)) == Push(acc, Thinking(x + y))
  {
    if x == [] {
      assert x + y == y;
    } else if y == [] {
      assert x + y == x;
    } else if acc != [] {
      var last := acc[|acc| - 1];
      if IsText(last) { assert last.text + x + y == last.text + (x + y); }
    }
  }

  /** Joining a text to the last event adds the same as appending it. */
  lemma JoinKeeps(init: seq<AgentEvent>, last: AgentEvent, x: Text)
    requires last.Token?
    ensures TokenText(init + [Token(last.text + x)]) == TokenText(init + [last]) + x
    ensures ThinkingText(init + [Token(last.text + x)]) == ThinkingText(init + [last])
    ensures Others(init + [Token(last.text + x)]) == Others(init + [last])
  {
    NormSnoc(init, last);
    NormSnoc(init, Token(last.text + x));
    assert TokenText(init) + (last.text + x) == TokenText(init) + last.text + x;
  }

  lemma JoinThinkingKeeps(init: seq<AgentEvent>, last: AgentEvent, x: Text)
    requires last.Thinking?
    ensures TokenText(init + [Thinking(last.text + x)]) == TokenText(init + [last])
    ensures ThinkingText(init + [Thinking(last.text + x)]) == ThinkingText(init + [last]) + x
    ensures Others(init + [Thinking(last.text + x)]) == Others(init + [last])
  {
    NormSnoc(init, last);
    NormSnoc(init, Thinking(last.text + x));
    assert ThinkingText(init) + (last.text + x) == ThinkingText(init) + last.text + x;
  }

  lemma PushKeeps(acc: seq<AgentEvent>, ev: AgentEvent)
    ensures TokenText(Push(acc, ev)) == TokenText(acc) + if ev.Token? then ev.text else []
    ensures ThinkingText(Push(acc, ev)) == ThinkingText(acc) + if ev.Thinking? then ev.text else []
    ensures Others(Push(acc, ev)) == Others(acc) + if IsText(ev) then [] else [ev]
  {
    NormSnoc(acc, ev);
    if acc == [] {
      assert [] + [ev] == [ev];
    } else {
      var n := |acc| - 1;
      assert acc == acc[..n] + [acc[n]];
      if ev.Token? && acc[n].Token? {
        JoinKeeps(acc[..n], acc[n], ev.text);
      } else if ev.Thinking? && acc[n].Thinking? {
        JoinThinkingKeeps(acc[..n], acc[n], ev.text);
      }
    }
  }

  /** The normal form keeps the reply, the thinking and every other event. */
  lemma {:induction false} NormKeeps(evs: seq<AgentEvent>)
    ensures TokenText(Norm(evs)) == TokenText(evs)
    ensures ThinkingText(Norm(evs)) == ThinkingText(evs)
    ensures Others(Norm(evs)) == Others(evs)
  {
    if evs != [] {
      var n := |evs| - 1;
      NormKeeps(evs[..n]);
      PushKeeps(Norm(evs[..n]), evs[n]);
    }
  }

  predicate NoneTruncated(evs: seq<AgentEvent>) {
    forall i | 0 <= i < |evs| :: !evs[i].Truncated?
  }

  predicate NoEmptyText(evs: seq<AgentEvent>) {
    forall i | 0 <= i < |evs| :: !IsEmptyText(evs[i])
  }

  predicate Joins(a: AgentEvent, b: AgentEvent) {
    (a.Token? && b.Token?) || (a.Thinking? && b.Thinking?)
  }

  /** No empty text, and no text next to one of its kind. */
  predicate Normal(evs: seq<AgentEvent>) {
    || evs == []
    || (Normal(evs[..|evs| - 1]) && !IsEmptyText(evs[|evs| - 1])
        && (|evs| > 1 ==> !Joins(evs[|evs| - 2], evs[|evs| - 1])))
  }

  lemma PushNormal(acc: seq<AgentEvent>, ev: AgentEvent)
    requires Normal(acc)
    ensures Normal(Push(acc, ev))
    ensures Normal(acc + [ev]) ==> Push(acc, ev) == acc + [ev]
  {
    assert (acc + [ev])[..|acc|] == acc;
    if acc != [] {
      var n := |acc| - 1;
      var joined := Push(acc, ev);
      if !IsEmptyText(ev) && Joins(acc[n], ev) { assert joined[..n] == acc[..n]; }
    }
  }

  /** The normal form is normal, and a stream that already is stays as it is. */
  lemma {:induction false} NormIsNormal(evs: seq<AgentEvent>)
    ensures Normal(Norm(evs))
    ensures Normal(evs) ==> Norm(evs) == evs
  {
    if evs != [] {
      var n := |evs| - 1;
      NormIsNormal(evs[..n]);
      PushNormal(Norm(evs[..n]), evs[n]);
      assert evs == evs[..n] + [evs[n]];
    }
  }
}
