/** The opencode adapter: each JSON line of the CLI becomes agent events. The CLI repeats the whole
    text of a part every time; the adapter sends on only what was added. */
module Translate {
  import opened Util
  import opened Events

  /** One JSON line, as far as the adapter looks into it. `None` stands for a missing field or
      one of another JSON type. */
  datatype Frame =
    | StepStart(sid: Option<Text>)
    | Texts(part: Option<TextPart>)
    | Reasoning(text: Option<Text>)
    | Tool(tool: Option<ToolPart>)
    | Failure(detail: Option<Text>, message: Option<Text>, top: Option<Text>)
    | Unknown

  datatype TextPart = TextPart(id: Option<Text>, full: Option<Text>)

  datatype ToolPart = ToolPart(name: Option<Text>, callId: Option<Text>, id: Option<Text>, state: Option<ToolState>)

  datatype ToolState = ToolState(status: Option<Text>, input: Option<Text>, output: Option<Text>)

  datatype Memory = Memory(announced: Option<Text>, last: map<Text, Text>)

  const EMPTY := Memory(None, map[])

  function OrElse(a: Option<Text>, b: Text): Text {
    if a.Some? then a.value else b
  }

  function FirstOf(a: Option<Text>, b: Option<Text>): Option<Text> {
    if a.Some? then a else b
  }

  function ToolEvent(part: ToolPart): AgentEvent {
    var name := OrElse(part.name, []);
    var id := FirstOf(part.callId, part.id);
    var state := if part.state.Some? then part.state.value else ToolState(None, None, None);
    var status := OrElse(state.status, []);
    if status == Utf8("completed") || status == Utf8("error")
    then ToolResult(name, OrElse(state.output, Utf8("null")), id)
    else ToolCall(name, OrElse(state.input, Utf8("null")), id)
  }

  /** The part a frame carries text for. */
  function PartOf(v: Frame): Option<Text> {
    if v.Texts? && v.part.Some? && v.part.value.id.Some? && v.part.value.full.Some? then v.part.value.id else None
  }

  function FullText(v: Frame): Text {
    if v.Texts? && v.part.Some? && v.part.value.full.Some? then v.part.value.full.value else []
  }

  function Seen(m: Memory, p: Text): Text {
    if p in m.last then m.last[p] else []
  }

  function Delta(prev: Text, full: Text): Text {
    if prev <= full then full[|prev|..] else full
  }

  function Emit(m: Memory, v: Frame): seq<AgentEvent> {
    match v
    case StepStart(sid) => if sid.None? || m.announced == sid then [] else [SessionStart(sid.value)]
    case Texts(_) =>
      if PartOf(v).None? then []
      else
        var delta := Delta(Seen(m, PartOf(v).value), FullText(v));
        if delta == [] then [] else [Token(delta)]
    case Reasoning(text) => if OrElse(text, []) == [] then [] else [Thinking(text.value)]
    case Tool(tool) => if tool.None? then [] else [ToolEvent(tool.value)]
    case Failure(detail, message, top) =>
      [Error(OrElse(FirstOf(detail, FirstOf(message, top)), Utf8("opencode reported an error")))]
    case Unknown => []
  }

  function Remember(m: Memory, v: Frame): Memory {
    if v.StepStart? && v.sid.Some? then m.(announced := v.sid)
    else if PartOf(v).Some? then m.(last := m.last[PartOf(v).value := FullText(v)])
    else m
  }

  function After(frames: seq<Frame>): Memory {
    if frames == [] then EMPTY else Remember(After(frames[..|frames| - 1]), frames[|frames| - 1])
  }

  function Emitted(frames: seq<Frame>): seq<AgentEvent> {
    if frames == [] then []
    else Emitted(frames[..|frames| - 1]) + Emit(After(frames[..|frames| - 1]), frames[|frames| - 1])
  }

  predicate HasError(evs: seq<AgentEvent>) {
    exists i | 0 <= i < |evs| :: evs[i].Error?
  }

  lemma HasErrorSnoc(evs: seq<AgentEvent>, ev: AgentEvent)
    ensures HasError(evs + [ev]) <==> HasError(evs) || ev.Error?
  {
    assert (evs + [ev])[|evs|] == ev;
    if HasError(evs) {
      var i :| 0 <= i < |evs| && evs[i].Error?;
      assert (evs + [ev])[i] == evs[i];
    }
  }

  /** The adapter's state lives across the lines of one turn. */
  class Translator {
    var announced: Option<Text>
    var last: map<Text, Text>

    constructor ()
      ensures View() == EMPTY
    {
      announced, last := None, map[];
    }

    function View(): Memory
      reads this
    {
      Memory(announced, last)
    }

    method Translate(v: Frame) returns (out: seq<AgentEvent>)
      modifies this
      ensures View() == Remember(old(View()), v)
      ensures out == Emit(old(View()), v)
    {
      match v
      case StepStart(sid) =>
        if sid.None? || announced == sid { return []; }
        announced := sid;
        return [SessionStart(sid.value)];
      case Texts(part) =>
        if part.None? || part.value.id.None? || part.value.full.None? { return []; }
        var id, full := part.value.id.value, part.value.full.value;
        var prev := if id in last then last[id] else [];
        var delta := if prev <= full then full[|prev|..] else full;
        last := last[id := full];
        return if delta == [] then [] else [Token(delta)];
      case Reasoning(text) =>
        var said := if text.Some? then text.value else [];
        return if said == [] then [] else [Thinking(said)];
      case Tool(tool) =>
        return if tool.None? then [] else [ToolEvent(tool.value)];
      case Failure(detail, message, top) =>
        var first := if detail.Some? then detail else if message.Some? then message else top;
        return [Error(if first.Some? then first.value else Utf8("opencode reported an error"))];
      case Unknown =>
        return [];
    }

    /** The reader task: translates line after line and notes whether an error event came by. */
    method Pump(frames: seq<Frame>) returns (sent: seq<AgentEvent>, errored: bool)
      requires View() == EMPTY
      modifies this
      ensures View() == After(frames)
      ensures sent == Emitted(frames)
      ensures errored <==> HasError(sent)
    {
      sent, errored := [], false;
      for n := 0 to |frames|
        invariant View() == After(frames[..n])
        invariant sent == Emitted(frames[..n])
        invariant errored <==> HasError(sent)
      {
        assert frames[..n + 1][..n] == frames[..n];
        var evs := Translate(frames[n]);
        sent, errored := Forward(evs, sent, errored);
      }
      assert frames[..|frames|] == frames;
    }
  }

  method Forward(evs: seq<AgentEvent>, before: seq<AgentEvent>, already: bool)
      returns (sent: seq<AgentEvent>, errored: bool)
    requires already <==> HasError(before)
    ensures sent == before + evs
    ensures errored <==> HasError(sent)
  {
    sent, errored := before, already;
    for k := 0 to |evs|
      invariant sent == before + evs[..k]
      invariant errored <==> HasError(sent)
    {
      HasErrorSnoc(sent, evs[k]);
      if evs[k].Error? { errored := true; }
      sent := sent + [evs[k]];
    }
  }

  /** The last cumulative text of part `p`. */
  function LastText(frames: seq<Frame>, p: Text): Text {
    if frames == [] then []
    else if PartOf(frames[|frames| - 1]) == Some(p) then FullText(frames[|frames| - 1])
    else LastText(frames[..|frames| - 1], p)
  }

  /** Every text of part `p` extends the one before it. */
  predicate Cumulative(frames: seq<Frame>, p: Text) {
    frames == []
    || (Cumulative(frames[..|frames| - 1], p)
        && (PartOf(frames[|frames| - 1]) == Some(p)
            ==> LastText(frames[..|frames| - 1], p) <= FullText(frames[|frames| - 1])))
  }

  /** What the frames of part `p` sent on, joined. */
  function Spoken(frames: seq<Frame>, p: Text): Text {
    if frames == [] then []
    else
      var init := frames[..|frames| - 1];
      Spoken(init, p)
      + if PartOf(frames[|frames| - 1]) == Some(p) then TokenText(Emit(After(init), frames[|frames| - 1])) else []
  }

  lemma {:induction false} SeenIsLastText(frames: seq<Frame>, p: Text)
    ensures Seen(After(frames), p) == LastText(frames, p)
  {
    if frames != [] { SeenIsLastText(frames[..|frames| - 1], p); }
  }

  lemma EmittedToken(m: Memory, v: Frame)
    ensures TokenText(Emit(m, v))
         == if PartOf(v).Some? then Delta(Seen(m, PartOf(v).value), FullText(v)) else []
  {
    var out := Emit(m, v);
    if out != [] { assert out == [out[0]] && out[..0] == []; }
  }

  lemma DeltaStep(spoken: Text, prev: Text, full: Text)
    ensures spoken == prev && prev <= full ==> spoken + Delta(prev, full) == full
    ensures spoken == prev && !(prev <= full) ==> |spoken + Delta(prev, full)| > |full|
    ensures |spoken| > |prev| ==> |spoken + Delta(prev, full)| > |full|
  {
    if prev <= full { assert prev + full[|prev|..] == full; }
  }

  /** With the other parts and events interleaved in any way, the pieces sent on for a part join
      to its last text exactly when the part only ever grew; otherwise too much is sent. */
  lemma {:induction false} DeltasJoinToLastTextIff(frames: seq<Frame>, p: Text)
    ensures Spoken(frames, p) == LastText(frames, p) <==> Cumulative(frames, p)
    ensures !Cumulative(frames, p) ==> |Spoken(frames, p)| > |LastText(frames, p)|
  {
    if frames != [] {
      var n := |frames| - 1;
      DeltasJoinToLastTextIff(frames[..n], p);
      if PartOf(frames[n]) == Some(p) {
        SeenIsLastText(frames[..n], p);
        EmittedToken(After(frames[..n]), frames[n]);
        DeltaStep(Spoken(frames[..n], p), LastText(frames[..n], p), FullText(frames[n]));
        assert Spoken(frames, p)
            == Spoken(frames[..n], p) + Delta(LastText(frames[..n], p), FullText(frames[n]));
      } else {
        assert Spoken(frames, p) == Spoken(frames[..n], p);
      }
    }
  }

  predicate OnlyPart(frames: seq<Frame>, p: Text) {
    forall i | 0 <= i < |frames| :: PartOf(frames[i]).None? || PartOf(frames[i]) == Some(p)
  }

  /** A turn that writes one part only: its reply is what that part sent on. */
  lemma {:induction false} OnePartReply(frames: seq<Frame>, p: Text)
    requires OnlyPart(frames, p)
    ensures TokenText(Emitted(frames)) == Spoken(frames, p)
  {
    if frames != [] {
      var n := |frames| - 1;
      OnePartReply(frames[..n], p);
      EmittedToken(After(frames[..n]), frames[n]);
      TokenTextAppend(Emitted(frames[..n]), Emit(After(frames[..n]), frames[n]));
      assert PartOf(frames[n]).None? || PartOf(frames[n]) == Some(p);
    }
  }

  function ReasoningOf(v: Frame): Text {
    if v.Reasoning? && v.text.Some? then v.text.value else []
  }

  /** The reasoning texts of the frames, joined. */
  function Reasonings(frames: seq<Frame>): Text {
    if frames == [] then [] else Reasonings(frames[..|frames| - 1]) + ReasoningOf(frames[|frames| - 1])
  }

  lemma ThinkingByFrame(before: seq<AgentEvent>, m: Memory, v: Frame)
    ensures ThinkingText(before + Emit(m, v)) == ThinkingText(before) + ReasoningOf(v)
    ensures HasError(before + Emit(m, v)) <==> HasError(before) || v.Failure?
  {
    var out := Emit(m, v);
    if out == [] {
      assert before + out == before;
    } else {
      assert out == [out[0]];
      NormSnoc(before, out[0]);
      HasErrorSnoc(before, out[0]);
    }
  }

  /** Reasoning goes through whole, and an error frame, nothing else, surfaces as an error. */
  lemma {:induction false} ReasoningAndErrorsSurface(frames: seq<Frame>)
    ensures ThinkingText(Emitted(frames)) == Reasonings(frames)
    ensures HasError(Emitted(frames)) <==> exists k :: 0 <= k < |frames| && frames[k].Failure?
  {
    if frames != [] {
      var n := |frames| - 1;
      ReasoningAndErrorsSurface(frames[..n]);
      ThinkingByFrame(Emitted(frames[..n]), After(frames[..n]), frames[n]);
      if k :| 0 <= k < n && frames[..n][k].Failure? { assert frames[k].Failure?; }
      if k :| 0 <= k < |frames| && frames[k].Failure? { assert k < n ==> frames[..n][k].Failure?; }
    }
  }

  function UseOf(v: Frame): seq<ToolPart> {
    if v.Tool? && v.tool.Some? then [v.tool.value] else []
  }

  /** The tool parts of the frames, in order. */
  function Uses(frames: seq<Frame>): seq<ToolPart> {
    if frames == [] then [] else Uses(frames[..|frames| - 1]) + UseOf(frames[|frames| - 1])
  }

  predicate IsTool(ev: AgentEvent) {
    ev.ToolCall? || ev.ToolResult?
  }

  function ToolsIn(evs: seq<AgentEvent>): (r: seq<AgentEvent>)
    ensures forall k | 0 <= k < |r| :: IsTool(r[k])
  {
    if evs == [] then []
    else ToolsIn(evs[..|evs| - 1]) + if IsTool(evs[|evs| - 1]) then [evs[|evs| - 1]] else []
  }

  predicate Finished(part: ToolPart) {
    part.state.Some? && part.state.value.status in {Some(Utf8("completed")), Some(Utf8("error"))}
  }

  /** The event tells of the tool use: its name, its id in the newer spelling or else the older, its
      output once it is completed or has failed and its input before. */
  predicate Tells(ev: AgentEvent, part: ToolPart) {
    && IsTool(ev) && ev.name == OrElse(part.name, [])
    && ev.id == (if part.callId.Some? then part.callId else part.id)
    && (ev.ToolResult? <==> Finished(part))
    && (ev.ToolResult? ==> ev.result == OrElse(part.state.value.output, Utf8("null")))
    && (ev.ToolCall? ==>
          ev.args == if part.state.Some? then OrElse(part.state.value.input, Utf8("null")) else Utf8("null"))
  }

  lemma ToolEventTells(part: ToolPart)
    ensures Tells(ToolEvent(part), part)
  {
    assert Utf8("completed") != [] && Utf8("error") != [];
  }

  lemma ToolsByFrame(before: seq<AgentEvent>, m: Memory, v: Frame)
    ensures ToolsIn(before + Emit(m, v)) == ToolsIn(before) + if UseOf(v) == [] then [] else [ToolEvent(UseOf(v)[0])]
  {
    var out := Emit(m, v);
    if out == [] {
      assert before + out == before;
    } else {
      assert (before + out)[..|before|] == before && out == [out[0]];
    }
  }

  /** The tool events of a stream are one for each tool frame with a part, in the order of the
      frames, each telling of its own frame. */
  lemma {:induction false} ToolEventsFollowFrames(frames: seq<Frame>)
    ensures |ToolsIn(Emitted(frames))| == |Uses(frames)|
    ensures forall k | 0 <= k < |Uses(frames)| :: Tells(ToolsIn(Emitted(frames))[k], Uses(frames)[k])
  {
    if frames != [] {
      var n := |frames| - 1;
      ToolEventsFollowFrames(frames[..n]);
      ToolsByFrame(Emitted(frames[..n]), After(frames[..n]), frames[n]);
      if UseOf(frames[n]) != [] { ToolEventTells(UseOf(frames[n])[0]); }
    }
  }

  function FailureOf(v: Frame): seq<Frame> {
    if v.Failure? then [v] else []
  }

  function Failures(frames: seq<Frame>): (r: seq<Frame>)
    ensures forall k | 0 <= k < |r| :: r[k].Failure?
  {
    if frames == [] then [] else Failures(frames[..|frames| - 1]) + FailureOf(frames[|frames| - 1])
  }

  function ErrorsIn(evs: seq<AgentEvent>): (r: seq<AgentEvent>)
    ensures forall k | 0 <= k < |r| :: r[k].Error?
  {
    if evs == [] then []
    else ErrorsIn(evs[..|evs| - 1]) + if evs[|evs| - 1].Error? then [evs[|evs| - 1]] else []
  }

  /** The nested detail if there is one, else the nested message, else the top one, else a fixed text. */
  predicate Reports(ev: AgentEvent, v: Frame)
    requires ev.Error? && v.Failure?
  {
    && (v.detail.Some? ==> ev.message == v.detail.value)
    && (v.detail.None? && v.message.Some? ==> ev.message == v.message.value)
    && (v.detail.None? && v.message.None? && v.top.Some? ==> ev.message == v.top.value)
    && (v.detail.None? && v.message.None? && v.top.None? ==> ev.message == Utf8("opencode reported an error"))
  }

  lemma ErrorsByFrame(before: seq<AgentEvent>, m: Memory, v: Frame)
    ensures |ErrorsIn(before + Emit(m, v))| == |ErrorsIn(before)| + |FailureOf(v)|
    ensures ErrorsIn(before) <= ErrorsIn(before + Emit(m, v))
    ensures v.Failure? ==> Reports(ErrorsIn(before + Emit(m, v))[|ErrorsIn(before)|], v)
  {
    var out := Emit(m, v);
    if out == [] {
      assert before + out == before;
    } else {
      assert (before + out)[..|before|] == before && out == [out[0]];
    }
  }

  /** The errors of a stream are one for each error frame, in order, each with that frame's message. */
  lemma {:induction false} ErrorsFollowFrames(frames: seq<Frame>)
    ensures |ErrorsIn(Emitted(frames))| == |Failures(frames)|
    ensures forall k | 0 <= k < |Failures(frames)| :: Reports(ErrorsIn(Emitted(frames))[k], Failures(frames)[k])
  {
    if frames != [] {
      var n := |frames| - 1;
      ErrorsFollowFrames(frames[..n]);
      ErrorsByFrame(Emitted(frames[..n]), After(frames[..n]), frames[n]);
    }
  }

  function SidOf(v: Frame): seq<Text> {
    if v.StepStart? && v.sid.Some? then [v.sid.value] else []
  }

  /** Session ids named by the frames, in order. */
  function Sids(frames: seq<Frame>): seq<Text> {
    if frames == [] then [] else Sids(frames[..|frames| - 1]) + SidOf(frames[|frames| - 1])
  }

  function Announced(evs: seq<AgentEvent>): seq<Text> {
    if evs == [] then []
    else Announced(evs[..|evs| - 1]) + if evs[|evs| - 1].SessionStart? then [evs[|evs| - 1].sessionId] else []
  }

  /** `xs` without immediate repetitions. */
  function Changes(xs: seq<Text>): seq<Text> {
    if |xs| <= 1 then xs
    else Changes(xs[..|xs| - 1]) + if xs[|xs| - 2] == xs[|xs| - 1] then [] else [xs[|xs| - 1]]
  }

  lemma {:induction false} AnnouncedIsLastSid(frames: seq<Frame>)
    ensures After(frames).announced == if Sids(frames) == [] then None else Some(Sids(frames)[|Sids(frames)| - 1])
  {
    if frames != [] { AnnouncedIsLastSid(frames[..|frames| - 1]); }
  }

  lemma ChangesSnoc(xs: seq<Text>, y: seq<Text>)
    requires |y| <= 1
    ensures Changes(xs + y) == Changes(xs) + if y != [] && xs != [] && xs[|xs| - 1] == y[0] then [] else y
  {
    if y == [] {
      assert xs + y == xs;
    } else {
      assert (xs + y)[..|xs|] == xs && y == [y[0]];
    }
  }

  lemma AnnouncedAppend(a: seq<AgentEvent>, b: seq<AgentEvent>)
    requires |b| <= 1
    ensures Announced(a + b) == Announced(a) + Announced(b)
  {
    if b == [] { assert a + b == a; } else { assert (a + b)[..|a|] == a && b == [b[0]] && b[..0] == []; }
  }

  lemma AnnouncedByFrame(m: Memory, v: Frame)
    ensures Announced(Emit(m, v)) == if SidOf(v) == [] || m.announced == Some(SidOf(v)[0]) then [] else SidOf(v)
  {
    var out := Emit(m, v);
    if out != [] { assert out == [out[0]] && out[..0] == []; }
  }

  /** A session is announced when it first appears and whenever it changes, never again in between. */
  lemma {:induction false} SessionsAnnouncedOnChange(frames: seq<Frame>)
    ensures Announced(Emitted(frames)) == Changes(Sids(frames))
  {
    if frames != [] {
      var n := |frames| - 1;
      var init, v := frames[..n], frames[n];
      SessionsAnnouncedOnChange(init);
      AnnouncedIsLastSid(init);
      SessionByFrame(Emitted(init), After(init), v, Sids(init));
    }
  }

  lemma SessionByFrame(before: seq<AgentEvent>, m: Memory, v: Frame, sids: seq<Text>)
    requires Announced(before) == Changes(sids)
    requires m.announced == if sids == [] then None else Some(sids[|sids| - 1])
    ensures Announced(before + Emit(m, v)) == Changes(sids + SidOf(v))
  {
    AnnouncedByFrame(m, v);
    AnnouncedAppend(before, Emit(m, v));
    SessionStep(sids, SidOf(v), m.announced);
  }

  lemma SessionStep(xs: seq<Text>, y: seq<Text>, announced: Option<Text>)
    requires |y| <= 1
    requires announced == if xs == [] then None else Some(xs[|xs| - 1])
    ensures Changes(xs + y) == Changes(xs) + if y == [] || announced == Some(y[0]) then [] else y
  {
    ChangesSnoc(xs, y);
  }

  lemma {:induction false} EmittedIsReal(frames: seq<Frame>)
    ensures NoneTruncated(Emitted(frames)) && NoEmptyText(Emitted(frames))
  {
    if frames != [] { EmittedIsReal(frames[..|frames| - 1]); }
  }
}
