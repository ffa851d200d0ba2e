/** The text of recent turns handed to a fresh provider session. */
module Context {
  import opened Util
  import opened Events

  datatype Prompt = Prompt(content: Text, events: seq<AgentEvent>)

  /** A line about a tool or an error; plain text and bookkeeping events leave none. */
  function Note(ev: AgentEvent): seq<Text> {
    match ev
    case ToolCall(name, args, _) => [Utf8("  > Tool call: `") + name + Utf8("` ") + args]
    case ToolResult(name, result, _) => [Utf8("  > Tool result: `") + name + Utf8("`: ") + result]
    case Error(message) => [Utf8("  > Error: ") + message]
    case _ => []
  }

  function Notes(evs: seq<AgentEvent>): seq<Text> {
    if evs == [] then [] else Notes(evs[..|evs| - 1]) + Note(evs[|evs| - 1])
  }

  function Join(lines: seq<Text>, sep: Text): Text {
    if lines == [] then []
    else if |lines| == 1 then lines[0]
    else lines[0] + sep + Join(lines[1..], sep)
  }

  /** `trim` is the standard library's whitespace trimming. */
  function Entry(trim: Text -> Text, content: Text, reply: Text, notes: seq<Text>): Text {
    var asked := [Utf8("User: ") + trim(content)];
    var answered := if trim(reply) == [] then [] else [Utf8("Assistant: ") + trim(reply)];
    Join(asked + answered + notes, Utf8("\n"))
  }

  function Formatted(trim: Text -> Text, p: Prompt): Text {
    Entry(trim, p.content, TokenText(p.events), Notes(p.events))
  }

  function AllFormatted(trim: Text -> Text, prompts: seq<Prompt>): seq<Text> {
    seq(|prompts|, i requires 0 <= i < |prompts| => Formatted(trim, prompts[i]))
  }

  function RecentContext(trim: Text -> Text, prompts: seq<Prompt>, max: nat): Text {
    Join(AllFormatted(trim, LastN(prompts, max)), Utf8("\n\n"))
  }

  method FormatPrompt(trim: Text -> Text, p: Prompt) returns (entry: Text)
    ensures entry == Formatted(trim, p)
  {
    var lines := [Utf8("User: ") + trim(p.content)];
    var reply: Text, notes: seq<Text> := [], [];
    for n := 0 to |p.events|
      invariant reply == TokenText(p.events[..n])
      invariant notes == Notes(p.events[..n])
    {
      assert p.events[..n + 1][..n] == p.events[..n];
      match p.events[n]
      case Token(text) => reply := reply + text;
      case ToolCall(name, args, _) => notes := notes + [Utf8("  > Tool call: `") + name + Utf8("` ") + args];
      case ToolResult(name, result, _) =>
        notes := notes + [Utf8("  > Tool result: `") + name + Utf8("`: ") + result];
      case Error(message) => notes := notes + [Utf8("  > Error: ") + message];
      case _ =>
    }
    assert p.events[..|p.events|] == p.events;
    if |trim(reply)| > 0 { lines := lines + [Utf8("Assistant: ") + trim(reply)]; }
    entry := Join(lines + notes, Utf8("\n"));
    assert trim(reply) == [] ==> lines == lines + [];
  }

  lemma {:induction false} NotesOfOthers(evs: seq<AgentEvent>)
    ensures Notes(evs) == Notes(Others(evs))
  {
    if evs != [] {
      var n := |evs| - 1;
      NotesOfOthers(evs[..n]);
      if IsText(evs[n]) {
        assert Others(evs) == Others(evs[..n]);
      } else {
        assert Others(evs)[..|Others(evs[..n])|] == Others(evs[..n]);
      }
    }
  }

  predicate SaysTheSame(p: Prompt, q: Prompt) {
    p.content == q.content && Norm(p.events) == Norm(q.events)
  }

  lemma EntryIgnoresChunking(trim: Text -> Text, p: Prompt, q: Prompt)
    requires SaysTheSame(p, q)
    ensures Formatted(trim, p) == Formatted(trim, q)
  {
    NormKeeps(p.events);
    NormKeeps(q.events);
    NotesOfOthers(p.events);
    NotesOfOthers(q.events);
  }

  /** The context depends on what the turns said, not on how the text was cut up. */
  lemma ContextIgnoresChunking(trim: Text -> Text, ps: seq<Prompt>, qs: seq<Prompt>, max: nat)
    requires |ps| == |qs| && forall i | 0 <= i < |ps| :: SaysTheSame(ps[i], qs[i])
    ensures RecentContext(trim, ps, max) == RecentContext(trim, qs, max)
  {
    var xs, ys := LastN(ps, max), LastN(qs, max);
    forall i | 0 <= i < |xs| ensures Formatted(trim, xs[i]) == Formatted(trim, ys[i]) {
      var k := |ps| - |xs| + i;
      assert xs[i] == ps[k] && ys[i] == qs[k];
      EntryIgnoresChunking(trim, ps[k], qs[k]);
    }
    assert AllFormatted(trim, xs) == AllFormatted(trim, ys);
  }

  // ----- what the text says -----------------------------------------------------------------

  lemma {:induction false} JoinSnoc(lines: seq<Text>, line: Text, sep: Text)
    requires lines != []
    ensures Join(lines + [line], sep) == Join(lines, sep) + sep + line
  {
    if |lines| > 1 {
      JoinSnoc(lines[1..], line, sep);
      assert (lines + [line])[1..] == lines[1..] + [line];
      Regroup(lines[0], sep, Join(lines[1..], sep), line);
    } else {
      assert (lines + [line])[1..] == [line];
    }
  }

  lemma Regroup(a: Text, sep: Text, b: Text, c: Text)
    ensures a + sep + (b + sep + c) == (a + sep + b) + sep + c
  {
  }

  predicate Noted(ev: AgentEvent) {
    ev.ToolCall? || ev.ToolResult? || ev.Error?
  }

  lemma {:induction false} NothingNoted(evs: seq<AgentEvent>)
    requires forall k | 0 <= k < |evs| :: !Noted(evs[k])
    ensures Notes(evs) == []
  {
    if evs != [] { NothingNoted(evs[..|evs| - 1]); }
  }

  /** Without tools and errors: the user's words, and the assistant's unless they are blank. */
  lemma EntryQuotesBoth(trim: Text -> Text, p: Prompt)
    requires forall k | 0 <= k < |p.events| :: !Noted(p.events[k])
    ensures Formatted(trim, p)
         == Utf8("User: ") + trim(p.content)
            + if trim(TokenText(p.events)) == [] then []
              else Utf8("\n") + Utf8("Assistant: ") + trim(TokenText(p.events))
  {
    NothingNoted(p.events);
    var asked, reply := Utf8("User: ") + trim(p.content), Utf8("Assistant: ") + trim(TokenText(p.events));
    if trim(TokenText(p.events)) != [] {
      assert EntryLines(trim, p) == [asked, reply];
      TwoLines(asked, Utf8("Assistant: "), trim(TokenText(p.events)));
    } else {
      assert EntryLines(trim, p) == [asked];
      assert asked + [] == asked;
    }
  }

  lemma TwoLines(asked: Text, head: Text, text: Text)
    ensures Join([asked, head + text], Utf8("\n")) == asked + (Utf8("\n") + head + text)
  {
    JoinSnoc([asked], head + text, Utf8("\n"));
    assert [asked] + [head + text] == [asked, head + text];
    assert asked + Utf8("\n") + (head + text) == asked + (Utf8("\n") + head + text);
  }

  /** A further tool call, tool result or error adds one line that names it; a further event of
      another kind that carries no reply text adds nothing. */
  lemma EntryNotesEach(trim: Text -> Text, p: Prompt, ev: AgentEvent)
    requires !ev.Token?
    ensures Formatted(trim, p.(events := p.events + [ev]))
         == Formatted(trim, p)
            + match ev
              case ToolCall(name, args, _) => Utf8("\n") + (Utf8("  > Tool call: `") + name + Utf8("` ") + args)
              case ToolResult(name, result, _) =>
                Utf8("\n") + (Utf8("  > Tool result: `") + name + Utf8("`: ") + result)
              case Error(message) => Utf8("\n") + (Utf8("  > Error: ") + message)
              case _ => []
  {
    if Noted(ev) { EntryAddsLine(trim, p, ev, Note(ev)[0]); } else { EntryKeeps(trim, p, ev); }
  }

  lemma NotesSnoc(evs: seq<AgentEvent>, ev: AgentEvent)
    ensures Notes(evs + [ev]) == Notes(evs) + Note(ev)
  {
    assert (evs + [ev])[..|evs|] == evs;
  }

  lemma LinesGrow(trim: Text -> Text, p: Prompt, ev: AgentEvent, line: Text)
    requires !ev.Token? && Note(ev) == [line]
    ensures EntryLines(trim, p.(events := p.events + [ev])) == EntryLines(trim, p) + [line]
  {
    NotesSnoc(p.events, ev);
    SameReplyAfter(p.events, ev);
  }

  lemma EntryAddsLine(trim: Text -> Text, p: Prompt, ev: AgentEvent, line: Text)
    requires !ev.Token? && Note(ev) == [line]
    ensures Formatted(trim, p.(events := p.events + [ev])) == Formatted(trim, p) + (Utf8("\n") + line)
  {
    LinesGrow(trim, p, ev, line);
    JoinSnoc(EntryLines(trim, p), line, Utf8("\n"));
    Attach(Formatted(trim, p), Utf8("\n"), line);
  }

  lemma Attach(a: Text, b: Text, c: Text)
    ensures a + b + c == a + (b + c)
  {
  }

  lemma EntryKeeps(trim: Text -> Text, p: Prompt, ev: AgentEvent)
    requires !ev.Token? && Note(ev) == []
    ensures Formatted(trim, p.(events := p.events + [ev])) == Formatted(trim, p) + []
  {
    NotesSnoc(p.events, ev);
    SameReplyAfter(p.events, ev);
    assert Notes(p.events) + [] == Notes(p.events);
    assert Formatted(trim, p) + [] == Formatted(trim, p);
  }

  function NotedIn(evs: seq<AgentEvent>): seq<AgentEvent> {
    if evs == [] then [] else NotedIn(evs[..|evs| - 1]) + if Noted(evs[|evs| - 1]) then [evs[|evs| - 1]] else []
  }

  lemma {:induction false} NotesOfNoted(evs: seq<AgentEvent>)
    ensures Notes(NotedIn(evs)) == Notes(evs)
  {
    if evs != [] {
      var n := |evs| - 1;
      NotesOfNoted(evs[..n]);
      if Noted(evs[n]) { NotesSnoc(NotedIn(evs[..n]), evs[n]); } else { assert NotedIn(evs) == NotedIn(evs[..n]); }
    }
  }

  /** How reply text and noted events are interleaved makes no difference. */
  lemma EntryByParts(trim: Text -> Text, p: Prompt, q: Prompt)
    requires p.content == q.content
    requires TokenText(p.events) == TokenText(q.events) && NotedIn(p.events) == NotedIn(q.events)
    ensures Formatted(trim, p) == Formatted(trim, q)
  {
    NotesOfNoted(p.events);
    NotesOfNoted(q.events);
  }

  function EntryLines(trim: Text -> Text, p: Prompt): (lines: seq<Text>)
    ensures lines != [] && Join(lines, Utf8("\n")) == Formatted(trim, p)
  {
    [Utf8("User: ") + trim(p.content)]
    + (if trim(TokenText(p.events)) == [] then [] else [Utf8("Assistant: ") + trim(TokenText(p.events))])
    + Notes(p.events)
  }

  lemma SameReplyAfter(evs: seq<AgentEvent>, ev: AgentEvent)
    requires !ev.Token?
    ensures TokenText(evs + [ev]) == TokenText(evs)
  {
    TokenTextAppend(evs, [ev]);
    assert [ev][..0] == [];
  }

  /** One more prompt: its entry comes last, after those of the newest `max - 1` before it. */
  lemma ContextGrows(trim: Text -> Text, ps: seq<Prompt>, p: Prompt, max: nat)
    requires max > 0
    ensures RecentContext(trim, ps + [p], max)
         == if ps == [] || max == 1 then Formatted(trim, p)
            else RecentContext(trim, ps, max - 1) + Utf8("\n\n") + Formatted(trim, p)
  {
    var before := LastN(ps, max - 1);
    assert LastN(ps + [p], max) == before + [p];
    assert AllFormatted(trim, before + [p]) == AllFormatted(trim, before) + [Formatted(trim, p)];
    if before != [] { JoinSnoc(AllFormatted(trim, before), Formatted(trim, p), Utf8("\n\n")); }
  }

  /** Nothing is quoted of no prompts. */
  lemma ContextOfNothing(trim: Text -> Text, ps: seq<Prompt>, max: nat)
    requires ps == [] || max == 0
    ensures RecentContext(trim, ps, max) == []
  {
    assert LastN(ps, max) == [];
  }
}
