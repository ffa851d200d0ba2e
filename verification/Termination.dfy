/** Once nothing new comes from outside, everything in flight ends: the nested drain and
    re-check loops cannot go round for ever, and what remains is an idle chat. */
module Termination {
  import opened Util
  import opened QueueStore
  import opened Protocol
  import opened Ownership
  import opened Ledger
  import opened Numbering
  import opened Invariant
  import opened Wake

  /** Steps a handler has left, the spawn included. */
  function HandlerRank(pc: Pc): (r: nat)
    ensures r <= 11
  {
    match pc
    case Done => 0
    case TickCheck(_) => 11
    case SendLock(_) => 10
    case SendRead(_) => 9
    case EnqMax(_, _) => 7
    case EnqInsert(_, _, _) => 6
    case EnqMode => 5
    case SendClaim(_) => 8
    case Claim(_) => 4
    case Unlock(next) => if next.ToDrainAgain? then 0 else 3
    case SpawnDrain => 1
    case SpawnTurn => 1
    case AddMax(who, _) => if who == ByDrain then 0 else 7
    case AddInsert(who, _, _) => if who == ByDrain then 0 else 6
    case AddIngest(who, _) => if who == ByDrain then 0 else 5
    case RunLock(_) => 10
    case RunCheck(_) => 9
    case RunPop(_) => 8
    case RunMarkDone(_) => 2
    case RetryLock => 6
    case RetryCheck => 5
    case ModeWrite(_) => 9
    case KickLock => 8
    case KickCheck => 7
    case KickMode => 6
    case KickRead => 5
    case ForceFlag => 9
    case LegacyLock(_) => 8
    case PostMax(_) => 2
    case PostInsert(_, _) => 1
    case _ => 0
  }

  /** How far the task is from its next pop or its release; it depends on the mode and on
      whether anything is pending, since those decide which way the loops turn. */
  function TaskRank(pc: Pc, more: bool, auto: bool): (r: nat)
    ensures r <= 82
  {
    match pc
    case ClearRemove => 3
    case ClearRead => if more then 10 else 4
    case ClearLock => if more then 11 else 5
    case ClearMode => 9
    case DrainPop => if auto then 6 else 20
    case DrainMode => if auto then 7 else 12
    case Unlock(next) => if next.ToDrainAgain? then (if auto then 8 else 13) else 0
    case Turn => 14
    case DrainMarkDone(_) => 15
    case AddIngest(who, _) => if who == ByDrain then 17 else 0
    case AddInsert(who, _, _) => if who == ByDrain then 18 else 0
    case AddMax(who, _) => if who == ByDrain then 19 else 0
    case DrainRecheck(_) => if auto then 20 else 82
    case DrainReset(_) => 81
    case _ => 0
  }

  /** Neither a handler on its way to the flag nor the task that has it. */
  predicate Aside(pc: Pc) {
    pc.Guard? || pc.TruncCut? || pc.TruncDelete?
  }

  /** A truncation takes prompts from the cache and then deletes as many. */
  function Weight(pc: Pc): nat {
    match pc
    case Guard => 1
    case TruncCut(_) => 2
    case TruncDelete(rows) => |rows| + 1
    case _ => 200 * HandlerRank(pc)
  }

  function TotalWeight(procs: seq<Proc>): nat {
    if procs == [] then 0 else TotalWeight(procs[..|procs| - 1]) + Weight(procs[|procs| - 1].pc)
  }

  function OwnerRank(s: State): (r: nat)
    ensures r <= 82
  {
    if s.owner.Some? && s.owner.value < |s.procs|
    then TaskRank(s.procs[s.owner.value].pc, HasPending(s.queue), s.auto)
    else 0
  }

  function Measure(s: State): nat {
    TotalWeight(s.procs) + 64 * PendingCount(s.queue) + OwnerRank(s) + |s.cache|
  }

  lemma {:induction false} WeightUpdate(procs: seq<Proc>, i: nat, p: Proc)
    requires i < |procs|
    ensures TotalWeight(procs[i := p]) + Weight(procs[i].pc) == TotalWeight(procs) + Weight(p.pc)
  {
    var n := |procs| - 1;
    if i < n {
      WeightUpdate(procs[..n], i, p);
      assert procs[i := p][..n] == procs[..n][i := p];
    } else {
      assert procs[i := p][..n] == procs[..n];
    }
  }

  /** The move pays for itself. */
  predicate Decreases(s: State, i: nat, m: Move)
    requires i < |s.procs|
  {
    var pc := s.procs[i].pc;
    && (HandlerRank(pc) > 0 ==> HandlerDecreases(s, i, m))
    && (Aside(pc) ==>
          && m.after.queue == s.queue && m.after.owner == s.owner && m.after.auto == s.auto
          && (m.pc.Done? || Aside(m.pc)) && Weight(m.pc) + |m.after.cache| < Weight(pc) + |s.cache|)
    && (HandlerRank(pc) == 0 && !Aside(pc) ==> TaskDecreases(s, i, m))
  }

  predicate HandlerDecreases(s: State, i: nat, m: Move)
    requires i < |s.procs|
  {
    && HandlerRank(m.pc) < HandlerRank(s.procs[i].pc) && !Aside(m.pc) && |m.after.cache| <= |s.cache| + 1
    && PendingCount(m.after.queue) <= PendingCount(s.queue) + 1
    && (m.after.owner == Some(i) ==> TaskRank(m.pc, HasPending(m.after.queue), m.after.auto) == 0)
  }

  predicate TaskDecreases(s: State, i: nat, m: Move)
    requires i < |s.procs|
  {
    && s.owner == Some(i) && HandlerRank(m.pc) == 0 && (m.after.owner == Some(i) || m.after.owner.None?)
    && Weight(m.pc) + |m.after.cache| + 64 * PendingCount(m.after.queue)
         + (if m.after.owner == Some(i) then TaskRank(m.pc, HasPending(m.after.queue), m.after.auto) else 0)
       < |s.cache| + 64 * PendingCount(s.queue) + TaskRank(s.procs[i].pc, HasPending(s.queue), s.auto)
  }

  lemma CountDone(q: seq<Row>, held: Option<Held>, accepted: seq<nat>, id: nat)
    requires RowsOk(q, held, accepted)
    ensures PendingCount(Delete(q, id, true)) == PendingCount(q)
  {
    match Find(q, id)
    case Some(k) => CountRemove(q, k);
    case None =>
  }

  lemma CountReset(q: seq<Row>, id: nat)
    ensures PendingCount(Reset(q, id)) <= PendingCount(q) + 1
  {
    match Find(q, id)
    case Some(k) => if q[k].running { CountUpdate(q, k, q[k].(running := false)); }
    case None =>
  }

  lemma CountInsert(q: seq<Row>, r: Row)
    requires !r.running
    ensures PendingCount(q + [r]) == PendingCount(q) + 1
  {
    assert (q + [r])[..|q|] == q;
  }

  lemma CountPopped(q: seq<Row>, k: Option<nat>)
    requires k.Some? ==> k.value < |q| && !q[k.value].running
    ensures k.Some? ==> PendingCount(MarkRunning(q, k.value)) == PendingCount(q) - 1
  {
    if k.Some? { CountUpdate(q, k.value, q[k.value].(running := true)); }
  }

  lemma ShrinkInsert(s: State, i: nat)
    requires i < |s.procs| && (s.procs[i].pc.EnqInsert? || s.procs[i].pc.PostInsert?)
    ensures Decreases(s, i, GoSend(s, i))
  {
    var pc := s.procs[i].pc;
    CountInsert(s.queue, Row(pc.m.id, pc.m.body, false, pc.pos));
  }

  lemma ShrinkSend(s: State, i: nat)
    requires Calm(s, i) && FamilyOf(s.procs[i].pc) == Sending && !s.procs[i].pc.EnqInsert? && !s.procs[i].pc.PostInsert?
    ensures Decreases(s, i, GoSend(s, i))
  {
  }

  lemma ShrinkClaim(s: State, i: nat)
    requires Calm(s, i) && FamilyOf(s.procs[i].pc) == Claiming
    ensures Decreases(s, i, GoClaim(s, i))
  {
  }

  lemma ShrinkAdd(s: State, i: nat)
    requires Calm(s, i) && FamilyOf(s.procs[i].pc) == Adding
    ensures Decreases(s, i, GoAdd(s, i))
  {
    if s.procs[i].pc.who == ByDrain { ShrinkAddTask(s, i); } else { ShrinkAddHandler(s, i); }
  }

  lemma ShrinkAddTask(s: State, i: nat)
    requires i < |s.procs| && s.owner == Some(i) && FamilyOf(s.procs[i].pc) == Adding && s.procs[i].pc.who == ByDrain
    ensures Decreases(s, i, GoAdd(s, i))
  {
  }

  lemma ShrinkAddHandler(s: State, i: nat)
    requires i < |s.procs| && FamilyOf(s.procs[i].pc) == Adding && s.procs[i].pc.who != ByDrain
    ensures Decreases(s, i, GoAdd(s, i))
  {
  }

  lemma ShrinkRunPop(s: State, i: nat)
    requires i < |s.procs| && s.owner != Some(i) && s.procs[i].pc.RunPop?
    ensures Decreases(s, i, GoRun(s, i))
  {
    var k := RunPopShape(s, i);
    CountPopped(s.queue, k);
  }

  lemma ShrinkRunDone(s: State, i: nat)
    requires Calm(s, i) && RowsOk(s.queue, s.held, s.accepted) && s.procs[i].pc.RunMarkDone?
    ensures Decreases(s, i, GoRun(s, i))
  {
    CountDone(s.queue, s.held, s.accepted, s.procs[i].pc.m.id);
  }

  lemma ShrinkRun(s: State, i: nat)
    requires Calm(s, i) && FamilyOf(s.procs[i].pc) == Running && !s.procs[i].pc.RunPop? && !s.procs[i].pc.RunMarkDone?
    ensures Decreases(s, i, GoRun(s, i))
  {
  }

  lemma ShrinkKick(s: State, i: nat)
    requires Calm(s, i) && FamilyOf(s.procs[i].pc) == Kicking
    ensures Decreases(s, i, GoKick(s, i))
  {
    ShrinkHandler(s, i, GoKick(s, i));
  }

  /** A handler's step that leaves queue, cache and owner alone. */
  lemma ShrinkHandler(s: State, i: nat, m: Move)
    requires i < |s.procs| && ProcOwn(s, i) && !Owns(s.procs[i].pc) && !Aside(m.pc)
    requires HandlerRank(m.pc) < HandlerRank(s.procs[i].pc)
    requires m.after.queue == s.queue && m.after.cache == s.cache && m.after.owner == s.owner
    ensures Decreases(s, i, m)
  {
  }

  predicate TouchesRows(pc: Pc) {
    pc.DrainPop? || pc.DrainReset? || pc.DrainMarkDone?
  }

  lemma ShrinkPop(s: State, i: nat)
    requires i < |s.procs| && s.owner == Some(i) && s.procs[i].pc.DrainPop?
    ensures Decreases(s, i, GoDrain(s, i))
  {
    match Head(s.queue)
    case None => ShrinkTo(s, i, Move(s, ClearLock));
    case Some(k) => ShrinkPopped(s, i, k);
  }

  lemma ShrinkPopped(s: State, i: nat, k: nat)
    requires i < |s.procs| && s.owner == Some(i) && s.procs[i].pc.DrainPop?
    requires k < |s.queue| && !s.queue[k].running
    ensures Decreases(s, i, Popped(s, i, Some(k), true))
  {
    CountPopped(s.queue, Some(k));
    assert HasPending(s.queue);
    ShrinkTo(s, i, Popped(s, i, Some(k), true));
  }

  /** A step of the task that owns the flag and keeps it. */
  lemma ShrinkTo(s: State, i: nat, m: Move)
    requires i < |s.procs| && s.owner == Some(i) && m.after.owner == s.owner
    requires HandlerRank(s.procs[i].pc) == 0 && !Aside(s.procs[i].pc) && Weight(m.pc) == 0 && m.after.cache == s.cache
    requires 64 * PendingCount(m.after.queue) + TaskRank(m.pc, HasPending(m.after.queue), m.after.auto)
           < 64 * PendingCount(s.queue) + TaskRank(s.procs[i].pc, HasPending(s.queue), s.auto)
    ensures Decreases(s, i, m)
  {
  }

  lemma ShrinkReset(s: State, i: nat)
    requires i < |s.procs| && s.owner == Some(i) && s.procs[i].pc.DrainReset?
    ensures Decreases(s, i, GoDrain(s, i))
  {
    CountReset(s.queue, s.procs[i].pc.m.id);
  }

  lemma ShrinkDone(s: State, i: nat)
    requires i < |s.procs| && s.owner == Some(i) && s.procs[i].pc.DrainMarkDone?
    requires PendingCount(Delete(s.queue, s.procs[i].pc.m.id, true)) == PendingCount(s.queue)
    ensures Decreases(s, i, GoDrain(s, i))
  {
    ShrinkTo(s, i, Move(s.(queue := Delete(s.queue, s.procs[i].pc.m.id, true), held := None), Turn));
  }

  lemma ShrinkDrain(s: State, i: nat)
    requires Calm(s, i) && FamilyOf(s.procs[i].pc) == Draining && !TouchesRows(s.procs[i].pc)
    ensures Decreases(s, i, GoDrain(s, i))
  {
  }

  lemma ShrinkLock(s: State, i: nat)
    requires i < |s.procs| && s.owner == Some(i) && s.procs[i].pc.ClearLock?
    ensures Decreases(s, i, GoClear(s, i))
  {
    ShrinkTo(s, i, Move(s.(lock := Some(i)), ClearRead));
  }

  lemma ShrinkRead(s: State, i: nat)
    requires i < |s.procs| && s.owner == Some(i) && s.procs[i].pc.ClearRead?
    ensures Decreases(s, i, GoClear(s, i))
  {
    ShrinkTo(s, i, Move(s, if HasPending(s.queue) then ClearMode else ClearRemove));
  }

  lemma ShrinkMode(s: State, i: nat)
    requires i < |s.procs| && s.owner == Some(i) && s.procs[i].pc.ClearMode?
    ensures Decreases(s, i, GoClear(s, i))
  {
    ShrinkTo(s, i, Move(s, if s.auto then Unlock(ToDrainAgain) else ClearRemove));
  }

  lemma ShrinkRemove(s: State, i: nat)
    requires i < |s.procs| && (s.procs[i].pc.ClearRemove? || s.procs[i].pc.Guard?)
    requires s.procs[i].pc.ClearRemove? ==> s.owner == Some(i)
    ensures Decreases(s, i, GoClear(s, i))
  {
  }

  lemma ShrinkClear(s: State, i: nat)
    requires Calm(s, i) && FamilyOf(s.procs[i].pc) == Clearing
    ensures Decreases(s, i, GoClear(s, i))
  {
    match s.procs[i].pc
    case ClearLock => ShrinkLock(s, i);
    case ClearRead => ShrinkRead(s, i);
    case ClearMode => ShrinkMode(s, i);
    case _ => ShrinkRemove(s, i);
  }

  lemma {:induction false} CutAddsUp(ps: seq<Prompt>, from: nat)
    ensures |KeepBelow(ps, from)| + |CutFrom(ps, from)| == |ps|
  {
    if ps != [] { CutAddsUp(ps[..|ps| - 1], from); }
  }

  lemma ShrinkCut(s: State, i: nat)
    requires Calm(s, i) && FamilyOf(s.procs[i].pc) == Truncating
    ensures Decreases(s, i, GoCut(s, i))
  {
    if s.procs[i].pc.TruncCut? { CutAddsUp(s.cache, s.procs[i].pc.from); }
  }

  lemma ShrinkFamilies(s: State, i: nat)
    requires Calm(s, i) && RowsOk(s.queue, s.held, s.accepted) && FamilyOf(s.procs[i].pc) !in {Ended, Spawning}
    ensures Decreases(s, i, Step(s, i))
  {
    match FamilyOf(s.procs[i].pc)
    case Sending =>
      if s.procs[i].pc.EnqInsert? || s.procs[i].pc.PostInsert? { ShrinkInsert(s, i); } else { ShrinkSend(s, i); }
    case Claiming => ShrinkClaim(s, i);
    case Adding => ShrinkAdd(s, i);
    case Running =>
      if s.procs[i].pc.RunPop? { ShrinkRunPop(s, i); }
      else if s.procs[i].pc.RunMarkDone? { ShrinkRunDone(s, i); }
      else { ShrinkRun(s, i); }
    case Kicking => ShrinkKick(s, i);
    case Draining =>
      if s.procs[i].pc.DrainPop? { ShrinkPop(s, i); }
      else if s.procs[i].pc.DrainReset? { ShrinkReset(s, i); }
      else if s.procs[i].pc.DrainMarkDone? {
        CountDone(s.queue, s.held, s.accepted, s.procs[i].pc.m.id);
        ShrinkDone(s, i);
      }
      else { ShrinkDrain(s, i); }
    case Clearing => ShrinkClear(s, i);
    case Truncating => ShrinkCut(s, i);
  }

  lemma ShrinkApply(s: State, i: nat, m: Move)
    requires i < |s.procs| && Decreases(s, i, m) && FamilyOf(s.procs[i].pc) !in {Ended, Spawning}
    ensures Measure(Set(m.after.(procs := s.procs), i, m.pc)) < Measure(s)
  {
    WeightUpdate(s.procs, i, s.procs[i].(pc := m.pc));
  }

  lemma ShrinkSpawned(s: State, i: nat)
    requires OwnInv(s) && i < |s.procs| && FamilyOf(s.procs[i].pc) == Spawning
    ensures Measure(GoStep(s, i)) < Measure(s)
  {
    assert ProcOwn(s, i);
    var ended := s.procs[i := s.procs[i].(pc := Done)];
    WeightUpdate(s.procs, i, s.procs[i].(pc := Done));
    assert GoStep(s, i).procs[..|s.procs|] == ended;
  }

  /** Every step of a process brings the end nearer. */
  lemma EveryStepShrinks(s: State, i: nat)
    requires Inv(s) && Enabled(s, Go(i)) && Disciplined(s, Go(i))
    ensures Measure(GoStep(s, i)) < Measure(s)
  {
    assert ProcOwn(s, i);
    if FamilyOf(s.procs[i].pc) == Spawning {
      ShrinkSpawned(s, i);
    } else {
      ShrinkFamilies(s, i);
      ShrinkApply(s, i, Step(s, i));
    }
  }

  ghost predicate Internal(evs: seq<Event>) {
    forall k | 0 <= k < |evs| :: evs[k].Go?
  }

  /** No process can take a step. */
  ghost predicate AtRest(s: State) {
    forall i: nat | i < |s.procs| :: !(Enabled(s, Go(i)) && Disciplined(s, Go(i)))
  }

  lemma StepTowardsRest(s: State, i: nat)
    requires Inv(s) && Enabled(s, Go(i)) && Disciplined(s, Go(i))
    ensures Inv(Next(s, Go(i))) && Measure(Next(s, Go(i))) < Measure(s)
  {
    EveryStepShrinks(s, i);
    InvStep(s, Go(i));
  }

  /** However the processes are scheduled, they stop after at most `Measure` steps. */
  lemma {:induction false} InternalRunsEnd(s: State, evs: seq<Event>)
    requires Inv(s) && Valid(s, evs) && Internal(evs)
    ensures |evs| + Measure(Run(s, evs)) <= Measure(s)
    decreases |evs|
  {
    if evs != [] {
      StepTowardsRest(s, evs[0].i);
      InternalRunsEnd(Next(s, evs[0]), evs[1..]);
    }
  }

  /** While some process is not done, some process can move, and keep to the discipline of
      truncations while it does. */
  lemma SteadyMove(s: State, i: nat) returns (mover: nat)
    requires OwnInv(s) && i < |s.procs| && !s.procs[i].pc.Done?
    ensures mover < |s.procs| && Enabled(s, Go(mover)) && Disciplined(s, Go(mover)) && Steady(s, Go(mover))
  {
    if j: nat :| j < |s.procs| && s.procs[j].pc.TruncDelete? {
      mover := j;
    } else if j: nat :| j < |s.procs| && Midway(s.procs[j].pc) {
      mover := j;
    } else {
      mover := if s.lock.Some? then s.lock.value else if s.owner.Some? then s.owner.value else i;
      assert ProcOwn(s, mover) && ProcOwn(s, i);
    }
  }

  /** There is no deadlock. */
  lemma NoDeadlock(s: State, i: nat)
    requires OwnInv(s) && i < |s.procs| && !s.procs[i].pc.Done?
    ensures !AtRest(s)
  {
    var mover := SteadyMove(s, i);
  }

  lemma AtRestAllDone(s: State)
    requires OwnInv(s) && AtRest(s)
    ensures forall i | 0 <= i < |s.procs| :: s.procs[i].pc.Done?
  {
    forall i | 0 <= i < |s.procs| ensures s.procs[i].pc.Done? {
      if !s.procs[i].pc.Done? { NoDeadlock(s, i); }
    }
  }

  /** At rest: every process is done, so the flag is clear, nothing is popped, and in auto mode the
      queue is empty; with the numbering intact, cache and store agree. */
  lemma RestIsIdle(s: State)
    requires Inv(s) && WakeInv(s) && AtRest(s)
    ensures forall i | 0 <= i < |s.procs| :: s.procs[i].pc.Done?
    ensures !s.flag && s.lock.None?
    ensures forall k | 0 <= k < |s.queue| :: !s.queue[k].running
    ensures s.auto ==> s.queue == []
    ensures NumInv(s) ==> s.cache == s.timeline && Numbered(s.timeline)
  {
    AtRestAllDone(s);
    var o := if s.lock.Some? then s.lock.value
             else if s.owner.Some? then s.owner.value
             else if s.held.Some? then s.held.value.pid
             else 0;
    if o < |s.procs| { assert ProcOwn(s, o) && ProcStore(s, o); }
    if NumInv(s) { RestIsNumbered(s); }
    assert forall w: nat :: !Watched(s, w);
    assert !Stranded(s);
    if s.queue != [] { assert !s.queue[0].running && HasPending(s.queue); }
  }

  lemma RestIsNumbered(s: State)
    requires NumInv(s) && forall i | 0 <= i < |s.procs| :: s.procs[i].pc.Done?
    ensures s.cache == s.timeline && Numbered(s.timeline)
  {
    NothingDoomed(s);
    NobodyLanding(s);
  }

  lemma Prepend(s: State, ev: Event, rest: seq<Event>)
    requires Enabled(s, ev) && Disciplined(s, ev) && Steady(s, ev) && Valid(Next(s, ev), rest)
    ensures Continues(s, ev, Next(s, ev), rest)
  {
    assert ([ev] + rest)[1..] == rest;
  }

  /** Unless at rest, some process can move, and any run from there on is a run from here. */
  lemma SomeMove(s: State) returns (i: nat, t: State)
    requires Inv(s) && !AtRest(s)
    ensures Inv(t) && Measure(t) < Measure(s)
    ensures forall rest | Valid(t, rest) :: Continues(s, Go(i), t, rest)
  {
    i :| i < |s.procs| && Enabled(s, Go(i)) && Disciplined(s, Go(i));
    i := SteadyMove(s, i);
    t := Next(s, Go(i));
    StepTowardsRest(s, i);
    forall rest | Valid(t, rest) ensures Continues(s, Go(i), t, rest) { Prepend(s, Go(i), rest); }
  }

  /** `rest`, taken after `ev` from `s`, leads where it leads from `t`. */
  ghost predicate Continues(s: State, ev: Event, t: State, rest: seq<Event>)
    requires Valid(t, rest)
  {
    && Valid(s, [ev] + rest) && Run(s, [ev] + rest) == Run(t, rest)
    && (AllSteady(t, rest) ==> AllSteady(s, [ev] + rest))
  }

  /** From any state the processes can be run to rest, cutting and deleting with care. */
  lemma {:induction false} RestIsReached(s: State) returns (evs: seq<Event>)
    requires Inv(s)
    ensures Internal(evs) && Valid(s, evs) && AllSteady(s, evs) && AtRest(Run(s, evs))
    decreases Measure(s)
  {
    evs := [];
    if !AtRest(s) {
      var i, t := SomeMove(s);
      var rest := RestIsReached(t);
      evs := [Go(i)] + rest;
      assert Continues(s, Go(i), t, rest);
      assert forall k | 0 <= k < |evs| :: evs[k] == if k == 0 then Go(i) else rest[k - 1];
    }
  }

  lemma {:induction false} InternalIsKicked(s: State, evs: seq<Event>)
    requires Valid(s, evs) && Internal(evs)
    ensures AllKicked(s, evs)
    decreases |evs|
  {
    if evs != [] { InternalIsKicked(Next(s, evs[0]), evs[1..]); }
  }

  /** The flag is clear, no row is Running, and in auto mode nothing waits: every accepted
      message is a prompt, or was cancelled or truncated. */
  ghost predicate Idle(t: State) {
    && !t.flag && (forall k | 0 <= k < |t.queue| :: !t.queue[k].running)
    && (t.auto ==>
          && t.queue == []
          && multiset(t.accepted) + multiset(t.dups)
              == multiset(MsgIds(t.timeline)) + multiset(t.cancelled + t.removed))
  }

  /** Once outside steps stop, any schedule of the rest ends, and where it ends the flag is
      clear, no row is Running, and in auto mode every accepted message has become a prompt
      unless it was cancelled or truncated. */
  lemma DrainsToIdle(evs: seq<Event>, more: seq<Event>)
    requires Valid(IDLE, evs) && AllKicked(IDLE, evs)
    requires Internal(more) && Valid(Run(IDLE, evs), more)
    ensures |more| <= Measure(Run(IDLE, evs))
    ensures AtRest(Run(Run(IDLE, evs), more)) ==> Idle(Run(Run(IDLE, evs), more))
  {
    InvIdle();
    WakeRunKeeps(IDLE, evs);
    EndsIdle(Run(IDLE, evs), more);
  }

  /** With truncations disciplined as well, cache and store then agree and are numbered 1..n. */
  lemma EndsNumbered(evs: seq<Event>, more: seq<Event>)
    requires Valid(IDLE, evs) && AllSteady(IDLE, evs)
    requires Internal(more) && Valid(Run(IDLE, evs), more) && AllSteady(Run(IDLE, evs), more)
    requires AtRest(Run(Run(IDLE, evs), more))
    ensures var t := Run(Run(IDLE, evs), more); t.cache == t.timeline && Numbered(t.timeline)
  {
    NumRun(IDLE, evs);
    NumRun(Run(IDLE, evs), more);
    AtRestAllDone(Run(Run(IDLE, evs), more));
    RestIsNumbered(Run(Run(IDLE, evs), more));
  }

  lemma EndsIdle(s: State, more: seq<Event>)
    requires Inv(s) && WakeInv(s) && Internal(more) && Valid(s, more)
    ensures |more| <= Measure(s)
    ensures AtRest(Run(s, more)) ==> Idle(Run(s, more))
  {
    InternalRunsEnd(s, more);
    InternalIsKicked(s, more);
    WakeRunKeeps(s, more);
    if AtRest(Run(s, more)) { RestIsDrained(Run(s, more)); }
  }

  lemma RestIsDrained(t: State)
    requires Inv(t) && WakeInv(t) && AtRest(t)
    ensures Idle(t)
  {
    RestIsIdle(t);
    if t.queue == [] { assert Waiting(t.queue, t.held) == multiset{}; }
  }
}
