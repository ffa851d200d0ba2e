/** The bounded event buffer of a prompt: the last 4096 events, led by a count of those dropped. */
module EventLog {
  import opened Events

  const MAX_EVENTS: nat := 4096
  const SLOTS_WITH_SENTINEL: nat := MAX_EVENTS + 1

  /** The counter of the sentinel has 32 bits. */
  const COUNTER: nat := 0x1_0000_0000

  predicate HasSentinel(buf: seq<AgentEvent>) {
    buf != [] && buf[0].Truncated?
  }

  function Append(buf: seq<AgentEvent>, ev: AgentEvent): seq<AgentEvent> {
    if HasSentinel(buf) then
      (if |buf| >= SLOTS_WITH_SENTINEL then [Truncated((buf[0].dropped + 1) % COUNTER)] + buf[2..] else buf) + [ev]
    else
      (if |buf| >= MAX_EVENTS then [Truncated(1)] + buf[1..] else buf) + [ev]
  }

  /** The buffer after the events arrived one by one. */
  function Buffered(evs: seq<AgentEvent>): seq<AgentEvent> {
    if evs == [] then [] else Append(Buffered(evs[..|evs| - 1]), evs[|evs| - 1])
  }

  function Evicted(evs: seq<AgentEvent>): (k: nat)
    ensures k <= |evs|
  {
    if |evs| <= MAX_EVENTS then 0 else |evs| - MAX_EVENTS
  }

  /** What the buffer is meant to hold, stated on the whole log. */
  function Bounded(evs: seq<AgentEvent>): seq<AgentEvent> {
    var k := Evicted(evs);
    if k == 0 then evs else [Truncated(k % COUNTER)] + evs[k..]
  }

  lemma {:induction false} BufferIsBounded(evs: seq<AgentEvent>)
    requires NoneTruncated(evs)
    ensures Buffered(evs) == Bounded(evs)
    ensures |Buffered(evs)| <= SLOTS_WITH_SENTINEL
  {
    if evs != [] {
      var n := |evs| - 1;
      BufferIsBounded(evs[..n]);
      BoundedStep(evs[..n], evs[n]);
      assert evs == evs[..n] + [evs[n]];
    }
  }

  lemma BoundedStep(evs: seq<AgentEvent>, ev: AgentEvent)
    requires NoneTruncated(evs)
    ensures Append(Bounded(evs), ev) == Bounded(evs + [ev])
  {
    var k, all := Evicted(evs), evs + [ev];
    if k > 0 {
      CounterStep(k);
      assert Bounded(evs)[2..] == evs[k + 1..];
      assert all[k + 1..] == evs[k + 1..] + [ev];
    } else if |evs| == MAX_EVENTS {
      assert all[1..] == evs[1..] + [ev];
    }
  }

  lemma CounterStep(k: nat)
    ensures (k % COUNTER + 1) % COUNTER == (k + 1) % COUNTER
  {
  }

  /** The reply survives the buffer exactly when no token text was among the events it dropped. */
  lemma BoundedReply(evs: seq<AgentEvent>)
    ensures TokenText(Bounded(evs)) == TokenText(evs) <==> TokenText(evs[..Evicted(evs)]) == []
    ensures exists gone: Text :: TokenText(evs) == gone + TokenText(Bounded(evs))
  {
    var k := Evicted(evs);
    TokenTextAppend(evs[..k], evs[k..]);
    assert evs == evs[..k] + evs[k..];
    if k > 0 {
      TokenTextAppend([Truncated(k % COUNTER)], evs[k..]);
      assert [Truncated(k % COUNTER)][..0] == [];
    } else {
      assert evs[k..] == evs;
    }
    assert TokenText(Bounded(evs)) == TokenText(evs[k..]);
  }

  class PromptLog {
    var events: seq<AgentEvent>

    constructor ()
      ensures events == []
    {
      events := [];
    }

    method AppendEvent(ev: AgentEvent)
      modifies this
      ensures events == Append(old(events), ev)
    {
      var hasSentinel := |events| > 0 && events[0].Truncated?;
      var cap := if hasSentinel then SLOTS_WITH_SENTINEL else MAX_EVENTS;
      if |events| >= cap {
        if hasSentinel {
          events := events[..1] + events[2..];
          events := events[0 := Truncated((events[0].dropped + 1) % COUNTER)];
        } else {
          events := events[0 := Truncated(1)];
        }
      }
      events := events + [ev];
    }

    /** A retry starts the log of the turn afresh. */
    method Clear()
      modifies this
      ensures events == Buffered([])
    {
      events := [];
    }
  }
}
