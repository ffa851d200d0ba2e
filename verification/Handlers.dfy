/** What each handler is for: its effect when nothing else runs meanwhile. */
module Handlers {
  import opened Util
  import opened QueueStore
  import opened Protocol
  import opened Ledger
  import opened Hazards
  import opened Witnesses
  import Numbering

  // ----- run_next and dispatch_item ---------------------------------------------------------

  /** The row a request takes: the head of the drain order, or the pending row with the given id. */
  predicate Names(req: Request, rows: seq<Row>, k: nat) {
    && k < |rows| && !rows[k].running
    && ((req == RunNext && IsHead(rows, k)) || req == Dispatch(rows[k].id))
  }

  function PickOf(req: Request): Option<nat> {
    if req.Dispatch? then Some(req.id) else None
  }

  /** The row the pop marks Running is the one named, and the process carries its id and text. */
  lemma PopTakesNamed(s: State, i: nat, req: Request, k: nat)
    requires UniqueIds(s.queue) && i < |s.procs| && Names(req, s.queue, k) && s.procs[i].pc == RunPop(PickOf(req))
    ensures GoRun(s, i).after.queue == s.queue[k := s.queue[k].(running := true)]
    ensures GoRun(s, i).pc == AddMax(ByRun, Msg(s.queue[k].id, s.queue[k].body))
  {
    if req == RunNext { HeadUnique(s.queue, k); } else { FindUnique(s.queue, k); }
  }

  /** A dispatch of an id that is not pending, or of anything from an empty queue, takes nothing. */
  lemma PopTakesNothing(s: State, i: nat, pick: Option<nat>)
    requires UniqueIds(s.queue) && i < |s.procs| && s.procs[i].pc == RunPop(pick)
    requires if pick.None? then !HasPending(s.queue)
             else forall k | 0 <= k < |s.queue| && s.queue[k].id == pick.value :: s.queue[k].running
    ensures GoRun(s, i) == Move(s, Unlock(Return))
  {
  }

  lemma RunHop(from: State, evs: seq<Event>, s: State, i: nat) returns (t: State)
    requires Reached(from, evs, s) && i < |s.procs| && !s.flag
    requires (s.procs[i].pc.RunLock? && s.lock.None?) || s.procs[i].pc.RunCheck?
    ensures Reached(from, evs + [Go(i)], t)
    ensures s.procs[i].pc.RunLock? ==> Hop(s, t, i, RunCheck(s.procs[i].pc.pick), false, Some(i))
    ensures s.procs[i].pc.RunCheck? ==> Hop(s, t, i, RunPop(s.procs[i].pc.pick), false, s.lock)
  {
    t := Advance(from, evs, s, i, GoRun(s, i));
  }

  lemma TakeHop(from: State, evs: seq<Event>, s: State, i: nat, req: Request, k: nat) returns (t: State)
    requires Reached(from, evs, s) && i < |s.procs| && s.procs[i].pc == RunPop(PickOf(req))
    requires UniqueIds(s.queue) && Names(req, s.queue, k)
    ensures Reached(from, evs + [Go(i)], t)
    ensures var r := s.queue[k];
            Hop(s.(queue := s.queue[k := r.(running := true)]), t, i, AddMax(ByRun, Msg(r.id, r.body)), s.flag, s.lock)
  {
    PopTakesNamed(s, i, req, k);
    t := Advance(from, evs, s, i, GoRun(s, i));
  }

  lemma AddRunHop(from: State, evs: seq<Event>, s: State, i: nat) returns (t: State)
    requires Reached(from, evs, s) && i < |s.procs| && FamilyOf(s.procs[i].pc) == Adding && s.procs[i].pc.who == ByRun
    ensures Reached(from, evs + [Go(i)], t)
    ensures var pc := s.procs[i].pc;
            && (pc.AddMax? ==> Hop(s, t, i, AddInsert(ByRun, pc.m, NextNum(s.timeline)), s.flag, s.lock))
            && (pc.AddInsert? ==>
                  var p := Prompt(pc.num, pc.m);
                  Hop(s.(timeline := s.timeline + [p]), t, i, AddIngest(ByRun, p), s.flag, s.lock))
            && (pc.AddIngest? ==> Hop(s.(cache := s.cache + [pc.p]), t, i, Claim(ToMarkDone(pc.p.msg)), s.flag, s.lock))
  {
    t := Advance(from, evs, s, i, GoAdd(s, i));
  }

  lemma EndRunHop(from: State, evs: seq<Event>, s: State, i: nat, m: Msg) returns (t: State)
    requires Reached(from, evs, s) && i < |s.procs| && s.procs[i].pc in {Claim(ToMarkDone(m)), Unlock(ToMarkDone(m))}
    ensures Reached(from, evs + [Go(i)], t)
    ensures s.procs[i].pc.Claim? ==> Hop(s, t, i, Unlock(ToMarkDone(m)), true, s.lock)
    ensures s.procs[i].pc.Unlock? ==> Hop(s, t, i, RunMarkDone(m), s.flag, None)
  {
    t := Advance(from, evs, s, i, GoClaim(s, i));
  }

  lemma MarkDoneHop(from: State, evs: seq<Event>, s: State, i: nat, k: nat) returns (t: State)
    requires Reached(from, evs, s) && i < |s.procs| && UniqueIds(s.queue) && k < |s.queue| && s.queue[k].running
    requires s.procs[i].pc.RunMarkDone? && s.procs[i].pc.m.id == s.queue[k].id
    ensures Reached(from, evs + [Go(i)], t)
    ensures Hop(s.(queue := RemoveAt(s.queue, k)), t, i, SpawnTurn, s.flag, s.lock)
  {
    FindUnique(s.queue, k);
    t := Advance(from, evs, s, i, GoRun(s, i));
  }

  /** From the request to the popped row. */
  lemma RequestPops(from: State, evs: seq<Event>, s: State, req: Request, k: nat) returns (t: State, all: seq<Event>)
    requires Reached(from, evs, s) && !s.flag && s.lock.None? && UniqueIds(s.queue) && Names(req, s.queue, k)
    ensures Reached(from, all, t) && !t.flag && t.lock == Some(|s.procs|)
    ensures Kept(s.(queue := s.queue[k := s.queue[k].(running := true)]), t)
    ensures t.procs == s.procs + [Proc(AddMax(ByRun, Msg(s.queue[k].id, s.queue[k].body)), false)]
  {
    var i := |s.procs|;
    Extend(from, evs, s, Arrive(req));
    t := Next(s, Arrive(req));
    all := evs + [Arrive(req)];
    t := RunHop(from, all, t, i);
    all := all + [Go(i)];
    t := RunHop(from, all, t, i);
    all := all + [Go(i)];
    t := TakeHop(from, all, t, i, req, k);
    all := all + [Go(i)];
    assert t.procs == s.procs + [Proc(AddMax(ByRun, Msg(s.queue[k].id, s.queue[k].body)), false)];
  }

  /** From the popped row to its prompt, in store and cache, and the claim. */
  lemma PoppedBecomesPrompt(from: State, evs: seq<Event>, s: State, i: nat) returns (t: State, all: seq<Event>)
    requires Reached(from, evs, s) && i < |s.procs| && s.procs[i].pc.AddMax? && s.procs[i].pc.who == ByRun
    ensures Reached(from, all, t) && t.flag && t.lock.None?
    ensures Kept(WithPrompt(s, Prompt(NextNum(s.timeline), s.procs[i].pc.m)), t)
    ensures t.procs == s.procs[i := s.procs[i].(pc := RunMarkDone(s.procs[i].pc.m))]
  {
    var m := s.procs[i].pc.m;
    t := AddRunHop(from, evs, s, i);
    all := evs + [Go(i)];
    t := AddRunHop(from, all, t, i);
    all := all + [Go(i)];
    t := AddRunHop(from, all, t, i);
    all := all + [Go(i)];
    t := EndRunHop(from, all, t, i, m);
    all := all + [Go(i)];
    t := EndRunHop(from, all, t, i, m);
    all := all + [Go(i)];
  }

  /** An idle chat: the named row leaves the queue, becomes the next prompt, and its turn starts. */
  lemma RunStartsTurn(from: State, evs: seq<Event>, s: State, req: Request, k: nat) returns (t: State, all: seq<Event>)
    requires Reached(from, evs, s) && !s.flag && s.lock.None? && UniqueIds(s.queue) && Names(req, s.queue, k)
    ensures Reached(from, all, t) && t.flag && t.lock.None?
    ensures var p := Prompt(NextNum(s.timeline), Msg(s.queue[k].id, s.queue[k].body));
            Kept(WithPrompt(s, p).(queue := RemoveAt(s.queue, k)), t)
    ensures t.procs == s.procs + [Proc(Done, false), Proc(Turn, false)]
  {
    var i := |s.procs|;
    var popped, first := RequestPops(from, evs, s, req, k);
    t, all := PoppedBecomesPrompt(from, first, popped, i);
    assert t.queue == s.queue[k := s.queue[k].(running := true)];
    t := MarkDoneHop(from, all, t, i, k);
    all := all + [Go(i)];
    assert RemoveAt(s.queue[k := s.queue[k].(running := true)], k) == RemoveAt(s.queue, k);
    t := SpawnHop(from, all, t, i);
    all := all + [Go(i)];
    assert t.procs == s.procs + [Proc(Done, false), Proc(Turn, false)];
  }

  // ----- retry_chat ---------------------------------------------------------------------------

  lemma RetryHop(from: State, evs: seq<Event>, s: State, i: nat) returns (t: State)
    requires Reached(from, evs, s) && i < |s.procs| && !s.flag && s.cache != []
    requires (s.procs[i].pc.RetryLock? && s.lock.None?) || s.procs[i].pc.RetryCheck?
    ensures Reached(from, evs + [Go(i)], t)
    ensures s.procs[i].pc.RetryLock? ==> Hop(s, t, i, RetryCheck, false, Some(i))
    ensures s.procs[i].pc.RetryCheck? ==> Hop(s, t, i, Claim(ToTurn), false, s.lock)
  {
    t := Advance(from, evs, s, i, GoRun(s, i));
  }

  /** An idle chat with a prompt: a turn starts and no prompt is added. */
  lemma RetryStartsTurn(from: State, evs: seq<Event>, s: State) returns (t: State, all: seq<Event>)
    requires Reached(from, evs, s) && !s.flag && s.lock.None? && s.cache != []
    ensures Reached(from, all, t) && t.flag && t.lock.None? && Kept(s, t)
    ensures t.procs == s.procs + [Proc(Done, false), Proc(Turn, false)]
  {
    var i := |s.procs|;
    Extend(from, evs, s, Arrive(Retry));
    t := Next(s, Arrive(Retry));
    all := evs + [Arrive(Retry)];
    t := RetryHop(from, all, t, i);
    all := all + [Go(i)];
    t := RetryHop(from, all, t, i);
    all := all + [Go(i)];
    t, all := ClaimToTurn(from, all, t, i);
    assert t.procs == s.procs + [Proc(Done, false), Proc(Turn, false)];
  }

  // ----- the ticker's check ---------------------------------------------------------------------

  /** A scheduled message is sent, like any other, unless a copy of it is pending. */
  lemma TickSendsUnlessPending(s: State, body: string)
    requires Enabled(s, Arrive(Tick(body)))
    ensures var pending := exists k | 0 <= k < |s.queue| :: !s.queue[k].running && s.queue[k].body == body;
            var pc := if pending then Done else SendLock(Msg(|s.procs|, body));
            GoStep(Next(s, Arrive(Tick(body))), |s.procs|)
            == s.(procs := s.procs + [Proc(pc, true)], ticker := Some(|s.procs|))
  {
    var t := Next(s, Arrive(Tick(body)));
    assert t.procs[|s.procs|].pc == TickCheck(Msg(|s.procs|, body));
    CheckedTick(t, |s.procs|, Msg(|s.procs|, body));
    assert forall pc :: t.procs[|s.procs| := t.procs[|s.procs|].(pc := pc)] == s.procs + [Proc(pc, true)];
  }

  lemma CheckedTick(s: State, i: nat, m: Msg)
    requires i < |s.procs| && s.procs[i].pc == TickCheck(m)
    ensures GoStep(s, i)
         == s.(procs := s.procs[i := s.procs[i].(pc := if PendingBody(s.queue, m.body) then Done else SendLock(m))])
  {
  }

  // ----- a send into an idle chat with a backlog ------------------------------------------------

  lemma QueueHop(from: State, evs: seq<Event>, s: State, i: nat) returns (t: State)
    requires Reached(from, evs, s) && i < |s.procs| && !s.flag && HasPending(s.queue)
    requires (s.procs[i].pc.SendLock? && s.lock.None?) || s.procs[i].pc.SendRead?
      || (s.procs[i].pc.EnqMax? && !s.procs[i].pc.busy) || (s.procs[i].pc.EnqInsert? && !s.procs[i].pc.busy)
      || s.procs[i].pc.EnqMode?
    ensures Reached(from, evs + [Go(i)], t)
    ensures var pc := s.procs[i].pc;
            && (pc.SendLock? ==> Hop(s, t, i, SendRead(pc.m), false, Some(i)))
            && (pc.SendRead? ==> Hop(s, t, i, EnqMax(pc.m, false), false, s.lock))
            && (pc.EnqMax? ==> Hop(s, t, i, EnqInsert(pc.m, false, NextPos(s.queue)), false, s.lock))
            && (pc.EnqInsert? ==>
                  Hop(s.(queue := Insert(s.queue, pc.m.id, pc.m.body, pc.pos)), t, i, EnqMode, false, s.lock))
            && (pc.EnqMode? ==> Hop(s, t, i, if s.auto then Claim(ToDrain) else Unlock(Return), false, s.lock))
  {
    t := Advance(from, evs, s, i, GoSend(s, i));
  }

  lemma SendQueues(from: State, evs: seq<Event>, s: State, body: string) returns (t: State, all: seq<Event>)
    requires Reached(from, evs, s) && !s.flag && s.lock.None? && HasPending(s.queue)
    ensures Reached(from, all, t) && !t.flag && t.lock == Some(|s.procs|)
    ensures Kept(s.(queue := s.queue + [Row(|s.procs|, body, false, NextPos(s.queue))]), t)
    ensures t.procs == s.procs + [Proc(if s.auto then Claim(ToDrain) else Unlock(Return), false)]
  {
    var i := |s.procs|;
    Extend(from, evs, s, Arrive(Send(body)));
    t := Next(s, Arrive(Send(body)));
    all := evs + [Arrive(Send(body))];
    t := QueueHop(from, all, t, i);
    all := all + [Go(i)];
    t := QueueHop(from, all, t, i);
    all := all + [Go(i)];
    t := QueueHop(from, all, t, i);
    all := all + [Go(i)];
    t := QueueHop(from, all, t, i);
    all := all + [Go(i)];
    PendingStays(s.queue, Row(i, body, false, NextPos(s.queue)));
    t := QueueHop(from, all, t, i);
    all := all + [Go(i)];
    assert t.procs == s.procs + [Proc(if s.auto then Claim(ToDrain) else Unlock(Return), false)];
  }

  lemma PendingStays(q: seq<Row>, r: Row)
    requires HasPending(q)
    ensures HasPending(q + [r])
  {
    var k :| 0 <= k < |q| && !q[k].running;
    assert !(q + [r])[k].running;
  }

  lemma DrainHop(from: State, evs: seq<Event>, s: State, i: nat) returns (t: State)
    requires Reached(from, evs, s) && i < |s.procs|
    requires s.procs[i].pc in {Claim(ToDrain), Unlock(ToDrain), Unlock(Return)}
    ensures Reached(from, evs + [Go(i)], t)
    ensures s.procs[i].pc == Claim(ToDrain) ==> Hop(s, t, i, Unlock(ToDrain), true, s.lock)
    ensures s.procs[i].pc == Unlock(ToDrain) ==> Hop(s, t, i, SpawnDrain, s.flag, None)
    ensures s.procs[i].pc == Unlock(Return) ==> Hop(s, t, i, Done, s.flag, None)
  {
    t := Advance(from, evs, s, i, GoClaim(s, i));
  }

  /** The message goes behind the backlog; in auto mode a drain starts, in manual mode nothing does. */
  lemma SendBehindBacklog(from: State, evs: seq<Event>, s: State, body: string) returns (t: State, all: seq<Event>)
    requires Reached(from, evs, s) && !s.flag && s.lock.None? && HasPending(s.queue)
    ensures Reached(from, all, t) && t.flag == s.auto && t.lock.None?
    ensures Kept(s.(queue := s.queue + [Row(|s.procs|, body, false, NextPos(s.queue))]), t)
    ensures t.procs == s.procs + [Proc(Done, false)] + if s.auto then [Proc(DrainMode, false)] else []
  {
    var i := |s.procs|;
    t, all := SendQueues(from, evs, s, body);
    if s.auto {
      t, all := ClaimDrains(from, all, t, i);
    } else {
      t := DrainHop(from, all, t, i);
      all := all + [Go(i)];
    }
    assert t.procs == s.procs + [Proc(Done, false)] + if s.auto then [Proc(DrainMode, false)] else [];
  }

  lemma StartDrain(from: State, evs: seq<Event>, s: State, i: nat) returns (t: State)
    requires Reached(from, evs, s) && i < |s.procs| && s.procs[i].pc.SpawnDrain?
    ensures Reached(from, evs + [Go(i)], t)
    ensures t.procs == s.procs[i := s.procs[i].(pc := Done)] + [Proc(DrainMode, false)]
    ensures t.flag == s.flag && t.lock == s.lock && Kept(s, t)
  {
    t := GoStep(s, i);
    Extend(from, evs, s, Go(i));
  }

  // ----- the kick of set_mode and stop ----------------------------------------------------------

  lemma KicksHop(from: State, evs: seq<Event>, s: State, i: nat) returns (t: State)
    requires Reached(from, evs, s) && i < |s.procs| && !s.flag && s.auto && HasPending(s.queue)
    requires s.procs[i].pc in {KickLock, KickCheck, KickMode, KickRead} && (s.procs[i].pc.KickLock? ==> s.lock.None?)
    ensures Reached(from, evs + [Go(i)], t)
    ensures s.procs[i].pc.KickLock? ==> Hop(s, t, i, KickCheck, false, Some(i))
    ensures s.procs[i].pc.KickCheck? ==> Hop(s, t, i, KickMode, false, s.lock)
    ensures s.procs[i].pc.KickMode? ==> Hop(s, t, i, KickRead, false, s.lock)
    ensures s.procs[i].pc.KickRead? ==> Hop(s, t, i, Claim(ToDrain), false, s.lock)
  {
    t := Advance(from, evs, s, i, GoKick(s, i));
  }

  lemma KickClaims(from: State, evs: seq<Event>, s: State, i: nat) returns (t: State, all: seq<Event>)
    requires Reached(from, evs, s) && i < |s.procs| && s.procs[i].pc.KickLock?
    requires !s.flag && s.lock.None? && s.auto && HasPending(s.queue)
    ensures Reached(from, all, t) && Hop(s, t, i, Claim(ToDrain), false, Some(i))
  {
    t := KicksHop(from, evs, s, i);
    all := evs + [Go(i)];
    t := KicksHop(from, all, t, i);
    all := all + [Go(i)];
    t := KicksHop(from, all, t, i);
    all := all + [Go(i)];
    t := KicksHop(from, all, t, i);
    all := all + [Go(i)];
  }

  lemma ClaimDrains(from: State, evs: seq<Event>, s: State, i: nat) returns (t: State, all: seq<Event>)
    requires Reached(from, evs, s) && i < |s.procs| && s.procs[i].pc == Claim(ToDrain)
    ensures Reached(from, all, t) && t.flag && t.lock.None? && Kept(s, t)
    ensures t.procs == s.procs[i := s.procs[i].(pc := Done)] + [Proc(DrainMode, false)]
  {
    t := DrainHop(from, evs, s, i);
    all := evs + [Go(i)];
    t := DrainHop(from, all, t, i);
    all := all + [Go(i)];
    t := StartDrain(from, all, t, i);
    all := all + [Go(i)];
    assert t.procs == s.procs[i := s.procs[i].(pc := Done)] + [Proc(DrainMode, false)];
  }

  lemma KickDrains(from: State, evs: seq<Event>, s: State, i: nat) returns (t: State, all: seq<Event>)
    requires Reached(from, evs, s) && i < |s.procs| && s.procs[i].pc.KickLock?
    requires !s.flag && s.lock.None? && s.auto && HasPending(s.queue)
    ensures Reached(from, all, t) && t.flag && t.lock.None? && Kept(s, t)
    ensures t.procs == s.procs[i := s.procs[i].(pc := Done)] + [Proc(DrainMode, false)]
  {
    t, all := KickClaims(from, evs, s, i);
    t, all := ClaimDrains(from, all, t, i);
  }

  /** An idle chat with a backlog: turning auto mode on starts a drain. */
  lemma AutoStartsDrain(from: State, evs: seq<Event>, s: State) returns (t: State, all: seq<Event>)
    requires Reached(from, evs, s) && !s.flag && s.lock.None? && HasPending(s.queue)
    ensures Reached(from, all, t) && t.flag && t.lock.None? && Kept(s.(auto := true), t)
    ensures t.procs == s.procs + [Proc(Done, false), Proc(DrainMode, false)]
  {
    var i := |s.procs|;
    Extend(from, evs, s, Arrive(SetMode(true)));
    t := Next(s, Arrive(SetMode(true)));
    all := evs + [Arrive(SetMode(true))];
    ModeIsWritten(t, i, true);
    Extend(from, all, t, Go(i));
    t := GoStep(t, i);
    all := all + [Go(i)];
    t, all := KickDrains(from, all, t, i);
    assert t.procs == s.procs + [Proc(Done, false), Proc(DrainMode, false)];
  }

  /** So does a stop, in auto mode. */
  lemma StopStartsDrain(from: State, evs: seq<Event>, s: State) returns (t: State, all: seq<Event>)
    requires Reached(from, evs, s) && !s.flag && s.lock.None? && s.auto && HasPending(s.queue)
    ensures Reached(from, all, t) && t.flag && t.lock.None? && Kept(s, t)
    ensures t.procs == s.procs + [Proc(Done, false), Proc(DrainMode, false)]
  {
    Extend(from, evs, s, Arrive(Stop(false)));
    t := Next(s, Arrive(Stop(false)));
    all := evs + [Arrive(Stop(false))];
    t, all := KickDrains(from, all, t, |s.procs|);
    assert t.procs == s.procs + [Proc(Done, false), Proc(DrainMode, false)];
  }

  // ----- single statements --------------------------------------------------------------------

  /** Cancelling removes the pending row with the id. */
  lemma CancelRemoves(s: State, k: nat)
    requires UniqueIds(s.queue) && k < |s.queue| && !s.queue[k].running
    ensures Next(s, Cancel(s.queue[k].id))
         == s.(queue := RemoveAt(s.queue, k), cancelled := s.cancelled + [s.queue[k].id])
  {
    FindUnique(s.queue, k);
  }

  /** It does nothing to a Running row or to none. */
  lemma CancelSpares(s: State, id: nat)
    requires UniqueIds(s.queue) && forall k | 0 <= k < |s.queue| && s.queue[k].id == id :: s.queue[k].running
    ensures Next(s, Cancel(id)) == s
  {
  }

  /** A reorder makes the queue drain as asked; it changes nothing but positions of pending rows. */
  lemma ReorderingIsHonoured(s: State, ids: seq<nat>)
    requires UniqueIds(s.queue)
    ensures var t := Next(s, Reordering(ids));
            && AsAsked(PendingOrder(s.queue), ids, PendingOrder(t.queue))
            && t == s.(queue := t.queue) && |t.queue| == |s.queue|
            && forall k: nat | k < |s.queue| :: Repositioned(s.queue[k], t.queue[k])
  {
    ReorderHonoursRequest(s.queue, ids);
    RowsRepositioned(s.queue, ids);
  }

  predicate Repositioned(was: Row, now: Row) {
    if was.running then now == was else now == was.(pos := now.pos)
  }

  lemma RowsRepositioned(rows: seq<Row>, ids: seq<nat>)
    ensures |Reorder(rows, ids)| == |rows|
    ensures forall k: nat | k < |rows| :: Repositioned(rows[k], Reorder(rows, ids)[k])
  {
  }

  /** The mode a handler writes is the mode asked for. */
  lemma ModeIsWritten(s: State, i: nat, mode: bool)
    requires i < |s.procs| && s.procs[i].pc == ModeWrite(mode)
    ensures GoStep(s, i) == s.(auto := mode, procs := s.procs[i := s.procs[i].(pc := if mode then KickLock else Done)])
  {
  }

  /** A truncation cuts from the cache exactly the prompts from its number on, and takes them along
      to delete them, in order. */
  lemma CutTakesRest(s: State, i: nat, k: nat)
    requires i < |s.procs| && s.procs[i].pc.TruncCut? && k <= |s.cache|
    requires forall j | 0 <= j < |s.cache| :: s.cache[j].num < s.procs[i].pc.from <==> j < k
    ensures GoCut(s, i).after.cache == s.cache[..k]
    ensures GoCut(s, i).pc == if k == |s.cache| then Done else TruncDelete(s.cache[k..])
  {
    Numbering.CutAt(s.cache, s.procs[i].pc.from, k);
  }

  /** Each of its deletes takes the first of them out of the store, if it is still there. */
  lemma DeleteTakesFirst(s: State, i: nat)
    requires i < |s.procs| && s.procs[i].pc.TruncDelete? && s.procs[i].pc.rows != []
    ensures var p, t := s.procs[i].pc.rows[0], GoCut(s, i).after;
            if p in s.timeline then exists k | 0 <= k < |s.timeline| ::
              s.timeline[k] == p && t.timeline == RemoveAt(s.timeline, k) && t.removed == s.removed + [p.msg.id]
            else t == s
    ensures GoCut(s, i).pc == if |s.procs[i].pc.rows| == 1 then Done else TruncDelete(s.procs[i].pc.rows[1..])
  {
    var p := s.procs[i].pc.rows[0];
    var k := FindPrompt(s.timeline, p);
    if k.Some? { assert s.timeline[k.value] == p && Erase(s, p).timeline == RemoveAt(s.timeline, k.value); }
  }
}
