/** Runs from the fresh chat that end where each missing assumption lets them. */
module Witnesses {
  import opened Util
  import opened QueueStore
  import opened Protocol
  import opened Numbering
  import opened Wake
  import opened Hazards

  // ----- single steps -----------------------------------------------------------------------

  /** One step of a process: where it goes, and what it does to the flag and the lock. Rows,
      prompts, mode and other processes stay as they are. */
  predicate Hop(s: State, t: State, i: nat, next: Pc, flag: bool, lock: Option<nat>)
    requires i < |s.procs|
  {
    && t.procs == s.procs[i := s.procs[i].(pc := next)] && t.flag == flag && t.lock == lock
    && Kept(s, t)
  }

  predicate Kept(s: State, t: State) {
    t.queue == s.queue && t.auto == s.auto && t.timeline == s.timeline && t.cache == s.cache
  }

  /** With one more prompt, stored and cached. */
  function WithPrompt(s: State, p: Prompt): State {
    s.(timeline := s.timeline + [p], cache := s.cache + [p])
  }

  /** A step of a run, by the family of its process. */
  lemma Advance(from: State, evs: seq<Event>, s: State, i: nat, m: Move) returns (t: State)
    requires Reached(from, evs, s) && Enabled(s, Go(i)) && FamilyOf(s.procs[i].pc) !in {Ended, Spawning}
    requires m == Step(s, i)
    ensures Reached(from, evs + [Go(i)], t) && t == Set(m.after.(procs := s.procs), i, m.pc)
  {
    t := GoStep(s, i);
    Extend(from, evs, s, Go(i));
  }

  function Added(who: Caller, m: Msg): Pc {
    if who == BySend then Unlock(ToTurn) else if who == ByLegacy then Claim(ToTurn) else DrainMarkDone(m)
  }

  lemma AddHop(from: State, evs: seq<Event>, s: State, i: nat) returns (t: State)
    requires Reached(from, evs, s) && i < |s.procs| && FamilyOf(s.procs[i].pc) == Adding && s.procs[i].pc.who != ByRun
    ensures Reached(from, evs + [Go(i)], t)
    ensures var pc := s.procs[i].pc;
            && (pc.AddMax? ==> Hop(s, t, i, AddInsert(pc.who, pc.m, NextNum(s.timeline)), s.flag, s.lock))
            && (pc.AddInsert? ==>
                  var p := Prompt(pc.num, pc.m);
                  Hop(s.(timeline := s.timeline + [p]), t, i, AddIngest(pc.who, p), s.flag, s.lock))
            && (pc.AddIngest? ==>
                  Hop(s.(cache := s.cache + [pc.p]), t, i, Added(pc.who, pc.p.msg), s.flag, s.lock))
  {
    t := Advance(from, evs, s, i, GoAdd(s, i));
  }

  lemma ClaimHop(from: State, evs: seq<Event>, s: State, i: nat) returns (t: State)
    requires Reached(from, evs, s) && i < |s.procs| && s.procs[i].pc in {Claim(ToTurn), Unlock(ToTurn)}
    ensures Reached(from, evs + [Go(i)], t)
    ensures s.procs[i].pc == Claim(ToTurn) ==> Hop(s, t, i, Unlock(ToTurn), true, s.lock)
    ensures s.procs[i].pc == Unlock(ToTurn) ==> Hop(s, t, i, SpawnTurn, s.flag, None)
  {
    t := Advance(from, evs, s, i, GoClaim(s, i));
  }

  lemma SpawnHop(from: State, evs: seq<Event>, s: State, i: nat) returns (t: State)
    requires Reached(from, evs, s) && i < |s.procs| && s.procs[i].pc.SpawnTurn?
    ensures Reached(from, evs + [Go(i)], t)
    ensures t.procs == s.procs[i := s.procs[i].(pc := Done)] + [Proc(Turn, false)]
    ensures t.flag == s.flag && t.lock == s.lock && Kept(s, t)
  {
    t := GoStep(s, i);
    Extend(from, evs, s, Go(i));
  }

  lemma SendHop(from: State, evs: seq<Event>, s: State, i: nat) returns (t: State)
    requires Reached(from, evs, s) && i < |s.procs| && !s.flag && !HasPending(s.queue)
    requires (s.procs[i].pc.SendLock? && s.lock.None?) || s.procs[i].pc.SendRead? || s.procs[i].pc.SendClaim?
    ensures Reached(from, evs + [Go(i)], t)
    ensures var pc := s.procs[i].pc;
            && (pc.SendLock? ==> Hop(s, t, i, SendRead(pc.m), false, Some(i)))
            && (pc.SendRead? ==> Hop(s, t, i, SendClaim(pc.m), false, s.lock))
            && (pc.SendClaim? ==> Hop(s, t, i, AddMax(BySend, pc.m), true, s.lock))
  {
    t := Advance(from, evs, s, i, GoSend(s, i));
  }

  lemma EndHop(from: State, evs: seq<Event>, s: State, i: nat) returns (t: State)
    requires Reached(from, evs, s) && i < |s.procs| && !s.auto && (s.procs[i].pc.Turn? || s.procs[i].pc.DrainMode?)
    ensures Reached(from, evs + [Go(i)], t)
    ensures s.procs[i].pc.Turn? ==> Hop(s, t, i, DrainMode, s.flag, s.lock)
    ensures s.procs[i].pc.DrainMode? ==> Hop(s, t, i, ClearLock, s.flag, s.lock)
  {
    t := Advance(from, evs, s, i, GoDrain(s, i));
  }

  lemma ClearHop(from: State, evs: seq<Event>, s: State, i: nat) returns (t: State)
    requires Reached(from, evs, s) && i < |s.procs| && s.queue == []
    requires s.procs[i].pc.ClearRead? || (s.procs[i].pc.ClearLock? && s.lock.None?)
    ensures Reached(from, evs + [Go(i)], t)
    ensures s.procs[i].pc.ClearLock? ==> Hop(s, t, i, ClearRead, s.flag, Some(i))
    ensures s.procs[i].pc.ClearRead? ==> Hop(s, t, i, ClearRemove, s.flag, s.lock)
  {
    t := Advance(from, evs, s, i, GoClear(s, i));
  }

  lemma ReleaseHop(from: State, evs: seq<Event>, s: State, i: nat) returns (t: State)
    requires Reached(from, evs, s) && i < |s.procs|
    requires s.procs[i].pc.ClearRemove? || (s.procs[i].pc.Guard? && s.lock.None?)
    ensures Reached(from, evs + [Go(i)], t)
    ensures Hop(s, t, i, if s.procs[i].pc.ClearRemove? then Guard else Done, false, None)
  {
    t := Advance(from, evs, s, i, GoClear(s, i));
  }

  /** Three steps store the prompt. */
  lemma AddDone(from: State, evs: seq<Event>, s: State, i: nat) returns (t: State, all: seq<Event>)
    requires Reached(from, evs, s) && i < |s.procs| && s.procs[i].pc.AddMax? && s.procs[i].pc.who in {BySend, ByLegacy}
    ensures Reached(from, all, t)
    ensures var p := Prompt(NextNum(s.timeline), s.procs[i].pc.m);
            var next := if s.procs[i].pc.who == BySend then Unlock(ToTurn) else Claim(ToTurn);
            Hop(WithPrompt(s, p), t, i, next, s.flag, s.lock)
  {
    t := AddHop(from, evs, s, i);
    all := evs + [Go(i)];
    t := AddHop(from, all, t, i);
    all := all + [Go(i)];
    t := AddHop(from, all, t, i);
    all := all + [Go(i)];
  }

  /** Two more release the lock and spawn the turn. */
  lemma UnlockToTurn(from: State, evs: seq<Event>, s: State, i: nat) returns (t: State, all: seq<Event>)
    requires Reached(from, evs, s) && i < |s.procs| && s.procs[i].pc == Unlock(ToTurn)
    ensures Reached(from, all, t)
    ensures t.flag == s.flag && t.lock.None? && Kept(s, t)
    ensures t.procs == s.procs[i := s.procs[i].(pc := Done)] + [Proc(Turn, false)]
  {
    t := ClaimHop(from, evs, s, i);
    all := evs + [Go(i)];
    t := SpawnHop(from, all, t, i);
    all := all + [Go(i)];
    assert t.procs == s.procs[i := s.procs[i].(pc := Done)] + [Proc(Turn, false)];
  }

  /** The claim, if the flag is not taken yet, and then the turn. */
  lemma ClaimToTurn(from: State, evs: seq<Event>, s: State, i: nat) returns (t: State, all: seq<Event>)
    requires Reached(from, evs, s) && i < |s.procs|
    requires s.procs[i].pc == Claim(ToTurn) || (s.procs[i].pc == Unlock(ToTurn) && s.flag)
    ensures Reached(from, all, t)
    ensures t.flag && t.lock.None? && Kept(s, t)
    ensures t.procs == s.procs[i := s.procs[i].(pc := Done)] + [Proc(Turn, false)]
  {
    if s.procs[i].pc.Claim? {
      var claimed := ClaimHop(from, evs, s, i);
      t, all := UnlockToTurn(from, evs + [Go(i)], claimed, i);
      assert t.procs == s.procs[i := s.procs[i].(pc := Done)] + [Proc(Turn, false)];
    } else {
      t, all := UnlockToTurn(from, evs, s, i);
    }
  }

  /** From the prompt write to the spawned turn, nobody in between. */
  lemma AddToTurn(from: State, evs: seq<Event>, s: State, i: nat) returns (t: State, all: seq<Event>)
    requires Reached(from, evs, s) && i < |s.procs| && s.procs[i].pc.AddMax? && s.procs[i].pc.who in {BySend, ByLegacy}
    requires s.procs[i].pc.who == BySend ==> s.flag
    ensures Reached(from, all, t)
    ensures t.flag && t.lock.None? && Kept(WithPrompt(s, Prompt(NextNum(s.timeline), s.procs[i].pc.m)), t)
    ensures t.procs == s.procs[i := s.procs[i].(pc := Done)] + [Proc(Turn, false)]
  {
    var added, mid := AddDone(from, evs, s, i);
    t, all := ClaimToTurn(from, mid, added, i);
    assert t.procs == s.procs[i := s.procs[i].(pc := Done)] + [Proc(Turn, false)];
  }

  lemma LegacyHop(s: State, i: nat) returns (t: State)
    requires Enabled(s, Go(i)) && s.procs[i].pc.LegacyLock?
    ensures t == Next(s, Go(i)) && Hop(s, t, i, AddMax(ByLegacy, s.procs[i].pc.m), s.flag, Some(i))
  {
    t := GoStep(s, i);
  }

  // ----- witness runs -----------------------------------------------------------------------

  /** A send into a chat whose flag and lock are clear and that has nothing pending takes the flag. */
  lemma SendClaims(from: State, evs: seq<Event>, s: State, body: string) returns (t: State, all: seq<Event>)
    requires Reached(from, evs, s) && !s.flag && s.lock.None? && !HasPending(s.queue)
    ensures Reached(from, all, t) && t.flag && t.lock == Some(|s.procs|) && Kept(s, t)
    ensures t.procs == s.procs + [Proc(AddMax(BySend, Msg(|s.procs|, body)), false)]
  {
    var i := |s.procs|;
    Extend(from, evs, s, Arrive(Send(body)));
    t := Next(s, Arrive(Send(body)));
    all := evs + [Arrive(Send(body))];
    t := SendHop(from, all, t, i);
    all := all + [Go(i)];
    t := SendHop(from, all, t, i);
    all := all + [Go(i)];
    t := SendHop(from, all, t, i);
    all := all + [Go(i)];
    assert t.procs == s.procs + [Proc(AddMax(BySend, Msg(i, body)), false)];
  }

  /** Such a send starts a turn. */
  lemma SendStartsTurn(from: State, evs: seq<Event>, s: State, body: string) returns (t: State, all: seq<Event>)
    requires Reached(from, evs, s) && !s.flag && s.lock.None? && !HasPending(s.queue)
    ensures Reached(from, all, t) && t.flag && t.lock.None?
    ensures Kept(WithPrompt(s, Prompt(NextNum(s.timeline), Msg(|s.procs|, body))), t)
    ensures t.procs == s.procs + [Proc(Done, false), Proc(Turn, false)]
  {
    t, all := SendClaims(from, evs, s, body);
    t, all := AddToTurn(from, all, t, |s.procs|);
    assert t.procs == s.procs + [Proc(Done, false), Proc(Turn, false)];
  }

  /** In manual mode a task whose turn ends releases the flag and leaves its guard behind. */
  lemma TurnReleases(from: State, evs: seq<Event>, s: State, i: nat) returns (t: State, all: seq<Event>)
    requires Reached(from, evs, s) && i < |s.procs| && s.procs[i].pc.Turn? && !s.auto && s.lock.None? && s.queue == []
    ensures Reached(from, all, t) && !t.flag && t.lock.None? && Kept(s, t)
    ensures t.procs == s.procs[i := s.procs[i].(pc := Guard)]
  {
    t := EndHop(from, evs, s, i);
    all := evs + [Go(i)];
    t := EndHop(from, all, t, i);
    all := all + [Go(i)];
    t := ClearHop(from, all, t, i);
    all := all + [Go(i)];
    t := ClearHop(from, all, t, i);
    all := all + [Go(i)];
    t := ReleaseHop(from, all, t, i);
    all := all + [Go(i)];
    assert t.procs == s.procs[i := s.procs[i].(pc := Guard)];
  }

  ghost predicate TwoTurns(s: State) {
    exists i: nat, j: nat :: i < j < |s.procs| && s.procs[i].pc.Turn? && s.procs[j].pc.Turn?
  }

  /** A second message is sent before the first task's deferred clear has run: the clear then
      frees the flag under the second turn, and a third message starts beside it. */
  lemma DeferredClearWitness() returns (t: State, evs: seq<Event>)
    ensures Reached(IDLE, evs, t) && TwoTurns(t)
  {
    ReachedStart(IDLE);
    t, evs := SendStartsTurn(IDLE, [], IDLE, "a");
    t, evs := TurnReleases(IDLE, evs, t, 1);
    t, evs := SendStartsTurn(IDLE, evs, t, "b");
    t := ReleaseHop(IDLE, evs, t, 1);
    evs := evs + [Go(1)];
    t, evs := SendStartsTurn(IDLE, evs, t, "c");
    assert t.procs[3].pc.Turn? && t.procs[5].pc.Turn?;
  }

  /** A send into a busy chat parks its message. */
  lemma SendParks(from: State, evs: seq<Event>, s: State, body: string) returns (t: State, all: seq<Event>)
    requires Reached(from, evs, s) && s.flag && s.lock.None?
    ensures Reached(from, all, t) && t.flag && t.lock.None?
    ensures Kept(s.(queue := s.queue + [Row(|s.procs|, body, false, NextPos(s.queue))]), t)
    ensures t.procs == s.procs + [Proc(Done, false)]
  {
    var i := |s.procs|;
    Extend(from, evs, s, Arrive(Send(body)));
    t := Next(s, Arrive(Send(body)));
    all := evs + [Arrive(Send(body))];
    t := ParkHop(from, all, t, i);
    all := all + [Go(i)];
    t := ParkHop(from, all, t, i);
    all := all + [Go(i)];
    t := ParkHop(from, all, t, i);
    all := all + [Go(i)];
    t := ParkHop(from, all, t, i);
    all := all + [Go(i)];
    t := ParkHop(from, all, t, i);
    all := all + [Go(i)];
    assert t.procs == s.procs + [Proc(Done, false)];
  }

  lemma ParkHop(from: State, evs: seq<Event>, s: State, i: nat) returns (t: State)
    requires Reached(from, evs, s) && i < |s.procs| && s.flag
    requires (s.procs[i].pc.SendLock? && s.lock.None?) || s.procs[i].pc.SendRead? || SawBusy(s.procs[i].pc)
        || s.procs[i].pc == Unlock(Return)
    ensures Reached(from, evs + [Go(i)], t) && t.flag && t.auto == s.auto
    ensures var pc := s.procs[i].pc;
            && (pc.SendLock? ==> Hop(s, t, i, SendRead(pc.m), true, Some(i)))
            && (pc.SendRead? ==> Hop(s, t, i, EnqMax(pc.m, true), true, s.lock))
            && (pc.EnqMax? ==> Hop(s, t, i, EnqInsert(pc.m, true, NextPos(s.queue)), true, s.lock))
            && (pc.EnqInsert? ==>
                  Hop(s.(queue := Insert(s.queue, pc.m.id, pc.m.body, pc.pos)), t, i, Unlock(Return), true, s.lock))
            && (pc.Unlock? ==> Hop(s, t, i, Done, true, None))
  {
    t := GoStep(s, i);
    Extend(from, evs, s, Go(i));
  }

  /** In auto mode a finished turn goes on to pop, and a popped row on to become a prompt. */
  lemma GoOnHop(from: State, evs: seq<Event>, s: State, i: nat) returns (t: State)
    requires Reached(from, evs, s) && i < |s.procs| && s.auto
    requires s.procs[i].pc.Turn? || s.procs[i].pc.DrainMode? || s.procs[i].pc.DrainRecheck?
    ensures Reached(from, evs + [Go(i)], t)
    ensures var pc := s.procs[i].pc;
            && (pc.Turn? ==> Hop(s, t, i, DrainMode, s.flag, s.lock))
            && (pc.DrainMode? ==> Hop(s, t, i, DrainPop, s.flag, s.lock))
            && (pc.DrainRecheck? ==> Hop(s, t, i, AddMax(ByDrain, pc.m), s.flag, s.lock))
  {
    t := Advance(from, evs, s, i, GoDrain(s, i));
  }

  lemma PopHop(from: State, evs: seq<Event>, s: State, i: nat) returns (t: State)
    requires Reached(from, evs, s) && i < |s.procs| && s.procs[i].pc.DrainPop?
    requires |s.queue| == 1 && !s.queue[0].running
    ensures Reached(from, evs + [Go(i)], t)
    ensures var r := s.queue[0];
            Hop(s.(queue := [r.(running := true)]), t, i, DrainRecheck(Msg(r.id, r.body)), s.flag, s.lock)
  {
    HeadUnique(s.queue, 0);
    t := Advance(from, evs, s, i, GoDrain(s, i));
  }

  lemma DoneHop(from: State, evs: seq<Event>, s: State, i: nat) returns (t: State)
    requires Reached(from, evs, s) && i < |s.procs| && s.procs[i].pc.DrainMarkDone?
    ensures Reached(from, evs + [Go(i)], t) && t.procs == s.procs[i := s.procs[i].(pc := Turn)]
  {
    t := Advance(from, evs, s, i, GoDrain(s, i));
  }

  /** An auto chat with `a` running and `b` parked: `a` ends and `b` is popped. */
  lemma PoppedBacklog() returns (t: State, evs: seq<Event>, b: Msg)
    ensures Reached(IDLE, evs, t) && t.flag && t.lock.None? && t.auto
    ensures |t.queue| == 1 && t.queue[0].running
    ensures t.procs == [Proc(KickLock, false), Proc(Done, false), Proc(DrainRecheck(b), false), Proc(Done, false)]
  {
    ReachedStart(IDLE);
    Extend(IDLE, [], IDLE, Arrive(SetMode(true)));
    t, evs := Next(IDLE, Arrive(SetMode(true))), [] + [Arrive(SetMode(true))];
    Extend(IDLE, evs, t, Go(0));
    t, evs := Next(t, Go(0)), evs + [Go(0)];
    assert t.procs == [Proc(KickLock, false)];
    t, evs := SendStartsTurn(IDLE, evs, t, "a");
    t, evs := SendParks(IDLE, evs, t, "b");
    b := Msg(t.queue[0].id, t.queue[0].body);
    t := GoOnHop(IDLE, evs, t, 2);
    evs := evs + [Go(2)];
    t := GoOnHop(IDLE, evs, t, 2);
    evs := evs + [Go(2)];
    t := PopHop(IDLE, evs, t, 2);
    evs := evs + [Go(2)];
  }

  /** A drain loop that has popped in auto mode starts its turn, whatever happened to the flag. */
  lemma DrainToTurn(from: State, evs: seq<Event>, s: State, i: nat) returns (t: State, all: seq<Event>)
    requires Reached(from, evs, s) && i < |s.procs| && s.auto && s.procs[i].pc.DrainRecheck?
    ensures Reached(from, all, t) && t.procs == s.procs[i := s.procs[i].(pc := Turn)]
  {
    t := GoOnHop(from, evs, s, i);
    all := evs + [Go(i)];
    t := AddHop(from, all, t, i);
    all := all + [Go(i)];
    t := AddHop(from, all, t, i);
    all := all + [Go(i)];
    t := AddHop(from, all, t, i);
    all := all + [Go(i)];
    t := DoneHop(from, all, t, i);
    all := all + [Go(i)];
    assert t.procs == s.procs[i := s.procs[i].(pc := Turn)];
  }

  /** The last prompt has no terminal event yet. */
  predicate TailOpen(pc: Pc) {
    match pc
    case AddIngest(_, _) => true
    case Claim(next) => next.ToTurn? || next.ToMarkDone?
    case Unlock(next) => next.ToTurn? || next.ToMarkDone?
    case SpawnTurn => true
    case RunMarkDone(_) => true
    case DrainMarkDone(_) => true
    case Turn => true
    case _ => false
  }

  /** A stop that arrives between two turns, when no turn is running and no prompt is unfinished,
      clears the flag of the draining task, which then starts a turn beside the next message's. */
  lemma ForcedClearWitness() returns (s: State, first: seq<Event>, t: State, rest: seq<Event>)
    ensures Reached(IDLE, first, s) && forall i | 0 <= i < |s.procs| :: !TailOpen(s.procs[i].pc)
    ensures Reached(Next(s, Arrive(Stop(true))), rest, t) && TwoTurns(t)
  {
    var b;
    s, first, b := PoppedBacklog();
    var from := Next(s, Arrive(Stop(true)));
    ReachedStart(from);
    assert from.procs[4] == Proc(ForceFlag, false);
    rest := [];
    t := ForceHop(from, rest, from, 4);
    rest := rest + [Go(4)];
    t, rest := SendStartsTurn(from, rest, t, "c");
    t, rest := DrainToTurn(from, rest, t, 2);
    assert t.procs[2].pc.Turn? && t.procs[6].pc.Turn?;
  }

  lemma ForceHop(from: State, evs: seq<Event>, s: State, i: nat) returns (t: State)
    requires Reached(from, evs, s) && i < |s.procs| && s.procs[i].pc.ForceFlag? && s.lock.None?
    ensures Reached(from, evs + [Go(i)], t) && Hop(s, t, i, KickLock, false, None)
  {
    t := Advance(from, evs, s, i, Step(s, i));
  }

  /** The legacy route next to a running turn. */
  lemma LegacyWitness() returns (t: State, evs: seq<Event>)
    ensures Reached(IDLE, evs, t) && TwoTurns(t)
  {
    ReachedStart(IDLE);
    t, evs := SendStartsTurn(IDLE, [], IDLE, "a");
    Extend(IDLE, evs, t, Arrive(Legacy("b")));
    t, evs := Next(t, Arrive(Legacy("b"))), evs + [Arrive(Legacy("b"))];
    Extend(IDLE, evs, t, Go(2));
    t := LegacyHop(t, 2);
    t, evs := AddToTurn(IDLE, evs + [Go(2)], t, 2);
    assert t.procs[1].pc.Turn? && t.procs[3].pc.Turn?;
  }

  // ----- messages left behind ---------------------------------------------------------------

  /** A pending message in auto mode, the flag clear, and every process at its end. */
  predicate LeftBehind(s: State) {
    Stranded(s) && !s.flag && forall i | 0 <= i < |s.procs| :: s.procs[i].pc.Done?
  }

  /** Turning auto mode on in a fresh chat comes to its end without draining anything. */
  lemma AutoChat() returns (t: State, evs: seq<Event>)
    ensures Reached(IDLE, evs, t) && t.procs == [Proc(Done, false)]
    ensures t.auto && !t.flag && t.lock.None? && t.queue == []
  {
    ReachedStart(IDLE);
    Extend(IDLE, [], IDLE, Arrive(SetMode(true)));
    t, evs := Next(IDLE, Arrive(SetMode(true))), [] + [Arrive(SetMode(true))];
    assert t.procs == [Proc(ModeWrite(true), false)];
    t := KickHop(IDLE, evs, t);
    evs := evs + [Go(0)];
    t := KickHop(IDLE, evs, t);
    evs := evs + [Go(0)];
    t := KickHop(IDLE, evs, t);
    evs := evs + [Go(0)];
    t := KickHop(IDLE, evs, t);
    evs := evs + [Go(0)];
    t := KickHop(IDLE, evs, t);
    evs := evs + [Go(0)];
    t := KickHop(IDLE, evs, t);
    evs := evs + [Go(0)];
  }

  /** The one process of the run kicks and finds nothing to do. */
  lemma KickHop(from: State, evs: seq<Event>, s: State) returns (t: State)
    requires Reached(from, evs, s) && |s.procs| == 1 && !s.procs[0].tick && !s.flag && s.queue == []
    requires s.procs[0].pc in {ModeWrite(true), KickLock, KickCheck, KickMode, KickRead, Unlock(Return)}
    requires s.procs[0].pc.ModeWrite? || s.auto
    requires s.procs[0].pc.KickLock? || s.procs[0].pc.ModeWrite? ==> s.lock.None?
    ensures Reached(from, evs + [Go(0)], t) && t.auto && !t.flag && t.queue == []
    ensures t.procs == [Proc(match s.procs[0].pc
                             case ModeWrite(_) => KickLock
                             case KickLock => KickCheck
                             case KickCheck => KickMode
                             case KickMode => KickRead
                             case KickRead => Unlock(Return)
                             case _ => Done, false)]
    ensures t.procs[0].pc in {KickLock, Done} ==> t.lock.None?
  {
    t := Advance(from, evs, s, 0, Step(s, 0));
  }

  /** POST /queue into an idle chat in auto mode. */
  lemma PostWitness() returns (t: State, evs: seq<Event>)
    ensures Reached(IDLE, evs, t) && LeftBehind(t)
  {
    t, evs := AutoChat();
    Extend(IDLE, evs, t, Arrive(Post("x")));
    t, evs := Next(t, Arrive(Post("x"))), evs + [Arrive(Post("x"))];
    assert t.procs == [Proc(Done, false), Proc(PostMax(Msg(1, "x")), false)];
    t := Advance(IDLE, evs, t, 1, GoSend(t, 1));
    evs := evs + [Go(1)];
    t := Advance(IDLE, evs, t, 1, GoSend(t, 1));
    evs := evs + [Go(1)];
    assert t.queue == [Row(1, "x", false, 0)];
    assert !t.queue[0].running;
  }

  /** A crash while a drain loop holds a popped row: the row is pending again and nobody comes. */
  lemma BootWitness() returns (t: State, evs: seq<Event>)
    ensures Reached(IDLE, evs, t) && LeftBehind(t)
  {
    var b;
    t, evs, b := PoppedBacklog();
    Extend(IDLE, evs, t, Crash);
    t, evs := Next(t, Crash), evs + [Crash];
    assert |t.queue| == 1 && !t.queue[0].running;
  }

  // ----- gaps in the numbering --------------------------------------------------------------

  /** The one prompt of the chat has number 2, and no truncation is under way. */
  predicate Gap(s: State, m: Msg) {
    s.timeline == [Prompt(2, m)] && s.cache == [Prompt(2, m)] && NobodyDeleting(s)
  }

  /** A finished chat with one prompt. */
  lemma OnePrompt() returns (t: State, evs: seq<Event>)
    ensures Reached(IDLE, evs, t) && !t.flag && t.lock.None? && t.queue == [] && !t.auto
    ensures t.timeline == [Prompt(1, Msg(0, "a"))] && t.cache == t.timeline
    ensures t.procs == [Proc(Done, false), Proc(Done, false)]
  {
    ReachedStart(IDLE);
    t, evs := SendStartsTurn(IDLE, [], IDLE, "a");
    t, evs := TurnReleases(IDLE, evs, t, 1);
    t := ReleaseHop(IDLE, evs, t, 1);
    evs := evs + [Go(1)];
  }

  lemma CutHop(from: State, evs: seq<Event>, s: State, i: nat) returns (t: State)
    requires Reached(from, evs, s) && i < |s.procs| && s.procs[i].pc == TruncCut(1)
    requires s.cache != [] && forall k | 0 <= k < |s.cache| :: s.cache[k].num >= 1
    ensures Reached(from, evs + [Go(i)], t)
    ensures Hop(s.(cache := []), t, i, TruncDelete(s.cache), s.flag, s.lock)
  {
    var m := CutMove(s, i);
    t := Advance(from, evs, s, i, m);
  }

  lemma CutMove(s: State, i: nat) returns (m: Move)
    requires i < |s.procs| && s.procs[i].pc == TruncCut(1)
    requires s.cache != [] && forall k | 0 <= k < |s.cache| :: s.cache[k].num >= 1
    ensures m == GoCut(s, i) == Move(s.(cache := [], doomed := Tags(|s.cache|, i) + s.doomed), TruncDelete(s.cache))
  {
    CutAll(s.cache);
    m := GoCut(s, i);
  }

  lemma {:induction false} CutAll(ps: seq<Prompt>)
    requires forall k | 0 <= k < |ps| :: ps[k].num >= 1
    ensures KeepBelow(ps, 1) == [] && CutFrom(ps, 1) == ps
  {
    if ps != [] { CutAll(ps[..|ps| - 1]); }
  }

  /** A truncation of everything arrives and cuts the cache. */
  lemma TruncationStarts(from: State, evs: seq<Event>, s: State) returns (t: State, all: seq<Event>)
    requires Reached(from, evs, s) && s.cache != [] && forall k | 0 <= k < |s.cache| :: s.cache[k].num >= 1
    ensures Reached(from, all, t) && t.flag == s.flag && t.lock == s.lock && Kept(s.(cache := []), t)
    ensures t.procs == s.procs + [Proc(TruncDelete(s.cache), false)]
  {
    Extend(from, evs, s, Arrive(Truncate(1)));
    t := Next(s, Arrive(Truncate(1)));
    all := evs + [Arrive(Truncate(1))];
    t := CutHop(from, all, t, |s.procs|);
    all := all + [Go(|s.procs|)];
    assert t.procs == s.procs + [Proc(TruncDelete(s.cache), false)];
  }

  lemma SecondNumber(ps: seq<Prompt>)
    requires |ps| == 1 && ps[0].num == 1
    ensures NextNum(ps) == 2
  {
    assert NextNum(ps[..0]) == 1;
  }

  /** Deleting the first prompt of the store. */
  lemma EraseHop(from: State, evs: seq<Event>, s: State, i: nat) returns (t: State)
    requires Reached(from, evs, s) && i < |s.procs| && s.procs[i].pc.TruncDelete? && s.procs[i].pc.rows != []
    requires s.timeline != [] && s.procs[i].pc.rows[0] == s.timeline[0] && s.timeline[0] !in s.timeline[1..]
    ensures Reached(from, evs + [Go(i)], t)
    ensures var rows := s.procs[i].pc.rows;
            var next := if |rows| == 1 then Done else TruncDelete(rows[1..]);
            Hop(s.(timeline := s.timeline[1..]), t, i, next, s.flag, s.lock)
  {
    t := Advance(from, evs, s, i, GoCut(s, i));
    assert forall j | 1 <= j < |s.timeline| :: s.timeline[j] == s.timeline[1..][j - 1];
    assert FindPrompt(s.timeline, s.timeline[0]) == Some(0);
    assert RemoveAt(s.timeline, 0) == s.timeline[1..];
  }

  /** A send reads MAX(seq) while the prompt a truncation has cut is still stored. */
  lemma AddGapWitness() returns (t: State, evs: seq<Event>)
    ensures Reached(IDLE, evs, t) && Gap(t, Msg(3, "b"))
  {
    t, evs := OnePrompt();
    SecondNumber(t.timeline);
    t, evs := TruncationStarts(IDLE, evs, t);
    t, evs := SendStartsTurn(IDLE, evs, t, "b");
    t := EraseHop(IDLE, evs, t, 2);
    evs := evs + [Go(2)];
  }

  /** A truncation cuts and deletes while a send is between reading MAX(seq) and its insert. */
  lemma CutGapWitness() returns (t: State, evs: seq<Event>)
    ensures Reached(IDLE, evs, t) && Gap(t, Msg(2, "b"))
  {
    t, evs := OnePrompt();
    SecondNumber(t.timeline);
    t, evs := SendClaims(IDLE, evs, t, "b");
    t := AddHop(IDLE, evs, t, 2);
    evs := evs + [Go(2)];
    t, evs := TruncationStarts(IDLE, evs, t);
    t := EraseHop(IDLE, evs, t, 3);
    evs := evs + [Go(3)];
    t := AddHop(IDLE, evs, t, 2);
    evs := evs + [Go(2)];
    t := AddHop(IDLE, evs, t, 2);
    evs := evs + [Go(2)];
  }

  /** The server dies between the two deletes of a truncation. */
  lemma CrashGapWitness() returns (t: State, evs: seq<Event>)
    ensures Reached(IDLE, evs, t) && Gap(t, Msg(2, "b"))
  {
    t, evs := OnePrompt();
    SecondNumber(t.timeline);
    t, evs := SendStartsTurn(IDLE, evs, t, "b");
    t, evs := TruncationStarts(IDLE, evs, t);
    t := EraseHop(IDLE, evs, t, 4);
    evs := evs + [Go(4)];
    Extend(IDLE, evs, t, Crash);
    t, evs := Next(t, Crash), evs + [Crash];
  }
}
