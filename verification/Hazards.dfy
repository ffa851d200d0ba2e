/** Steps the discipline restricts, each safe exactly when it finds the chat as the discipline
    says. `Witnesses` has the runs in which it does not. */
module Hazards {
  import opened Util
  import opened Protocol
  import opened Ownership
  import opened Numbering
  import opened Invariant
  import opened Wake
  import opened Termination
  import opened Gaps

  ghost predicate Answers(s: State, i: nat) {
    i < |s.procs| && Owns(s.procs[i].pc)
  }

  /** The flag is set exactly while one process answers for it. */
  ghost predicate Exclusive(s: State) {
    && (s.flag <==> exists i: nat :: Answers(s, i))
    && forall i: nat, j: nat | Answers(s, i) && Answers(s, j) :: i == j
  }

  lemma InvExclusive(s: State)
    requires OwnInv(s)
    ensures Exclusive(s)
  {
    forall i: nat | Answers(s, i) ensures s.owner == Some(i) { assert ProcOwn(s, i); }
    if s.owner.Some? { assert ProcOwn(s, s.owner.value) && Answers(s, s.owner.value); }
  }

  /** The deferred clear of a finished task's guard keeps the chat exclusive if and only if
      nobody has taken the flag since. */
  lemma DeferredClearSafeIff(s: State, i: nat)
    requires OwnInv(s) && Enabled(s, Go(i)) && s.procs[i].pc.Guard?
    ensures Exclusive(Next(s, Go(i))) <==> !s.flag
  {
    var t := Next(s, Go(i));
    InvExclusive(s);
    assert forall j: nat | j < |s.procs| && j != i :: t.procs[j] == s.procs[j];
    if s.flag {
      var o: nat :| Answers(s, o);
      assert Answers(t, o);
    } else {
      assert forall j: nat :: Answers(t, j) ==> Answers(s, j);
    }
  }

  /** The forced clear of a stop that found no running turn, likewise. */
  lemma ForcedClearSafeIff(s: State, i: nat)
    requires OwnInv(s) && Enabled(s, Go(i)) && s.procs[i].pc.ForceFlag?
    ensures Exclusive(Next(s, Go(i))) <==> !s.flag
  {
    var t := Next(s, Go(i));
    InvExclusive(s);
    assert forall j: nat | j < |s.procs| && j != i :: t.procs[j] == s.procs[j];
    if s.flag {
      var o: nat :| Answers(s, o);
      assert Answers(t, o);
    } else {
      assert forall j: nat :: Answers(t, j) ==> Answers(s, j);
    }
  }

  // ----- truncation -------------------------------------------------------------------------

  /** No truncation but `i` is still to cut. */
  predicate OnlyCut(s: State, i: nat) {
    forall j: nat | j < |s.procs| && j != i :: !s.procs[j].pc.TruncCut?
  }

  /** Cutting the cache under a prompt that is being added leaves a gap under every schedule that
      cuts no more, as soon as nobody is between reading MAX(seq) and pushing a prompt. Under
      schedules that read no number too early, that is the only way to a gap. */
  lemma CutSafeIff(s: State, i: nat, more: seq<Event>)
    requires OwnInv(s) && NumInv(s) && Enabled(s, Go(i)) && s.procs[i].pc.TruncCut? && OnlyCut(s, i)
    requires Internal(more) && Valid(Next(s, Go(i)), more) && NobodyMidway(Run(Next(s, Go(i)), more))
    ensures var safe := CutFrom(s.cache, s.procs[i].pc.from) == [] || NobodyMidway(s);
            && (!safe ==> !Numbered(Run(Next(s, Go(i)), more).cache))
            && (AllSteady(Next(s, Go(i)), more) ==> (Numbered(Run(Next(s, Go(i)), more).cache) <==> safe))
  {
    var t := Next(s, Go(i));
    OwnStep(s, Go(i));
    if CutFrom(s.cache, s.procs[i].pc.from) == [] || NobodyMidway(s) {
      NumStep(s, Go(i));
      if AllSteady(t, more) { NumRun(t, more); }
    } else {
      CutSpoils(s, i);
      CutEnds(s, i);
      SpoiltEndsMisnumbered(t, more);
    }
  }

  lemma CutEnds(s: State, i: nat)
    requires i < |s.procs| && s.procs[i].pc.TruncCut? && OnlyCut(s, i)
    ensures NobodyCutting(GoStep(s, i))
  {
  }

  /** Reading MAX(seq) for a new prompt leaves a gap exactly when a truncation has rows left to
      delete: under every schedule that cuts no more, once nobody is adding. */
  lemma AddSafeIff(s: State, i: nat, more: seq<Event>)
    requires OwnInv(s) && NumInv(s) && Enabled(s, Go(i)) && s.procs[i].pc.AddMax? && NobodyCutting(s)
    requires Internal(more) && Valid(Next(s, Go(i)), more) && NobodyMidway(Run(Next(s, Go(i)), more))
    ensures Numbered(Run(Next(s, Go(i)), more).cache) <==> NobodyDeleting(s)
  {
    var t := Next(s, Go(i));
    OwnStep(s, Go(i));
    CacheStep(s, i);
    if NobodyDeleting(s) {
      NumStep(s, Go(i));
      NoTruncationIsSteady(t, more);
      NumRun(t, more);
    } else {
      AddSpoils(s, i);
      SpoiltEndsMisnumbered(t, more);
    }
  }

  /** A crash leaves a gap exactly when MAX(seq) is not the number of stored prompts, that is when
      these are not numbered 1..n. */
  lemma CrashSafeIff(s: State)
    requires NumInv(s)
    ensures Numbered(Next(s, Crash).cache) <==> NextNum(s.timeline) == |s.timeline| + 1
    ensures NumInv(Next(s, Crash)) <==> Numbered(s.timeline)
  {
    NumberedIffMaxIsCount(s.timeline);
    if NextNum(s.timeline) == |s.timeline| + 1 { NumCrash(s); }
    assert Reboot(s).cache == s.timeline;
  }

  // ----- enqueueing without a kick ----------------------------------------------------------

  /** Apart from `i`, only the task that holds the flag is still under way. */
  predicate Settled(s: State, i: nat) {
    forall j: nat | j < |s.procs| && j != i :: s.procs[j].pc.Done? || s.procs[j].pc.Guard? || s.owner == Some(j)
  }

  /** `POST /queue` neither takes the lock nor kicks. With the chat in auto mode and nothing else
      in flight, the posted item has been dispatched when everything comes to rest if and only if
      the flag is held and its owner has not yet decided to release it. */
  lemma DirectEnqueueSafeIff(s: State, i: nat, more: seq<Event>)
    requires Inv(s) && Enabled(s, Go(i)) && s.procs[i].pc.PostInsert? && s.auto && Settled(s, i)
    requires Internal(more) && Valid(Next(s, Go(i)), more) && AtRest(Run(Next(s, Go(i)), more))
    ensures Run(Next(s, Go(i)), more).queue == [] <==> s.flag && !Releasing(s)
  {
    var t := PostHop(s, i);
    if s.flag && !Releasing(s) {
      OwnerAlone(s, i, t);
      EndsIdle(t, more);
      ModeStays(t, more);
    } else {
      AllParting(s, i, t);
      WindingKeepsQueue(t, more);
    }
  }

  lemma OwnerAlone(s: State, i: nat, t: State)
    requires OwnInv(s) && i < |s.procs| && Settled(s, i) && t.procs == s.procs[i := s.procs[i].(pc := Done)]
    ensures forall j | 0 <= j < |t.procs| :: !Posts(t.procs[j].pc) && !t.procs[j].pc.ModeWrite?
  {
    forall j | 0 <= j < |t.procs| ensures !Posts(t.procs[j].pc) && !t.procs[j].pc.ModeWrite? { assert ProcOwn(s, j); }
  }

  lemma AllParting(s: State, i: nat, t: State)
    requires OwnInv(s) && i < |s.procs| && Settled(s, i) && t.procs == s.procs[i := s.procs[i].(pc := Done)]
    requires !s.flag || Releasing(s)
    ensures Winding(t)
  {
    forall j: nat | j < |t.procs| ensures Parting(t.procs[j].pc) { assert ProcOwn(s, j); }
  }

  lemma PostHop(s: State, i: nat) returns (t: State)
    requires Inv(s) && Enabled(s, Go(i)) && s.procs[i].pc.PostInsert?
    ensures t == Next(s, Go(i)) && Inv(t) && t.queue != []
    ensures t.procs == s.procs[i := s.procs[i].(pc := Done)] && t.auto == s.auto && t.flag == s.flag
        && t.owner == s.owner
    ensures Releasing(t) <==> Releasing(s)
  {
    t := PostShape(s, i);
    PostReleases(s, i, t);
    InvStep(s, Go(i));
  }

  lemma PostReleases(s: State, i: nat, t: State)
    requires OwnInv(s) && i < |s.procs| && s.procs[i].pc.PostInsert?
    requires t.procs == s.procs[i := s.procs[i].(pc := Done)] && t.owner == s.owner
    ensures Releasing(t) <==> Releasing(s)
  {
    assert ProcOwn(s, i);
  }

  lemma PostShape(s: State, i: nat) returns (t: State)
    requires i < |s.procs| && s.procs[i].pc.PostInsert?
    ensures t == GoStep(s, i) && t.queue != [] && t.auto == s.auto && t.flag == s.flag && t.owner == s.owner
    ensures t.procs == s.procs[i := s.procs[i].(pc := Done)]
  {
    t := GoStep(s, i);
  }

  lemma {:induction false} ModeStays(s: State, evs: seq<Event>)
    requires Valid(s, evs) && Internal(evs) && forall j | 0 <= j < |s.procs| :: !s.procs[j].pc.ModeWrite?
    ensures Run(s, evs).auto == s.auto
    decreases |evs|
  {
    if evs != [] {
      var t := ModeStep(s, evs[0].i);
      ModeStays(Next(s, evs[0]), evs[1..]);
    }
  }

  lemma ModeStep(s: State, i: nat) returns (t: State)
    requires Enabled(s, Go(i)) && forall j | 0 <= j < |s.procs| :: !s.procs[j].pc.ModeWrite?
    ensures t == Next(s, Go(i)) && t.auto == s.auto && forall j | 0 <= j < |t.procs| :: !t.procs[j].pc.ModeWrite?
  {
    t := GoStep(s, i);
    if FamilyOf(s.procs[i].pc) != Spawning {
      ModeMove(s, i, Step(s, i));
      assert forall j | 0 <= j < |s.procs| && j != i :: t.procs[j] == s.procs[j];
    }
  }

  lemma ModeMove(s: State, i: nat, m: Move)
    requires i < |s.procs| && !s.procs[i].pc.ModeWrite? && m == Step(s, i)
    ensures m.after.auto == s.auto && !m.pc.ModeWrite?
  {
    match FamilyOf(s.procs[i].pc)
    case Sending => ModeSend(s, i);
    case Running => ModeRun(s, i);
    case Draining => ModeDrain(s, i);
    case _ =>
  }

  lemma ModeSend(s: State, i: nat)
    requires i < |s.procs|
    ensures GoSend(s, i).after.auto == s.auto && !GoSend(s, i).pc.ModeWrite?
  {
  }

  lemma ModeRun(s: State, i: nat)
    requires i < |s.procs|
    ensures GoRun(s, i).after.auto == s.auto && !GoRun(s, i).pc.ModeWrite?
  {
  }

  lemma ModeDrain(s: State, i: nat)
    requires i < |s.procs|
    ensures GoDrain(s, i).after.auto == s.auto && !GoDrain(s, i).pc.ModeWrite?
  {
  }

  /** On the way out: done, in the guard's clear, or about to release the flag. */
  predicate Parting(pc: Pc) {
    pc.Done? || pc.Guard? || pc.ClearRemove?
  }

  predicate Winding(s: State) {
    forall j: nat | j < |s.procs| :: Parting(s.procs[j].pc)
  }

  lemma {:induction false} WindingKeepsQueue(s: State, evs: seq<Event>)
    requires Valid(s, evs) && Internal(evs) && Winding(s)
    ensures Run(s, evs).queue == s.queue
    decreases |evs|
  {
    if evs != [] {
      var t := WindingStep(s, evs[0].i);
      WindingKeepsQueue(Next(s, evs[0]), evs[1..]);
    }
  }

  lemma WindingStep(s: State, i: nat) returns (t: State)
    requires Enabled(s, Go(i)) && Winding(s)
    ensures t == Next(s, Go(i)) && t.queue == s.queue && Winding(t)
  {
    t := Next(s, Go(i));
    assert Parting(s.procs[i].pc);
  }

  /** Boot does not kick a drain: a restart leaves no stranded item if and only if it finds
      manual mode or an empty queue. */
  lemma BootSafeIff(s: State)
    ensures var t := Next(s, Crash);
            (Stranded(t) ==> exists w: nat :: Watched(t, w)) <==> (!s.auto || s.queue == [])
  {
    var t := Next(s, Crash);
    forall w: nat ensures !Watched(t, w) { }
    if s.queue != [] { assert !t.queue[0].running; }
  }

  // ----- runs, disciplined or not -----------------------------------------------------------

  predicate Linked(states: seq<State>, evs: seq<Event>, k: nat) {
    k < |evs| && k + 1 < |states| && Enabled(states[k], evs[k]) && states[k + 1] == Next(states[k], evs[k])
  }

  ghost predicate Trace(from: State, states: seq<State>, evs: seq<Event>, s: State) {
    && |states| == |evs| + 1 && states[0] == from && states[|evs|] == s
    && forall k: nat | k < |evs| :: Linked(states, evs, k)
  }

  /** Taking the events one after the other, each enabled when its turn comes, leads to `s`. */
  ghost predicate Reached(from: State, evs: seq<Event>, s: State) {
    exists states :: Trace(from, states, evs, s)
  }

  lemma ReachedStart(s: State)
    ensures Reached(s, [], s)
  {
    assert Trace(s, [s], [], s);
  }

  lemma Extend(from: State, evs: seq<Event>, s: State, ev: Event)
    requires Reached(from, evs, s) && Enabled(s, ev)
    ensures Reached(from, evs + [ev], Next(s, ev))
  {
    var states :| Trace(from, states, evs, s);
    var more, all := states + [Next(s, ev)], evs + [ev];
    forall k: nat | k < |all| ensures Linked(more, all, k) {
      if k < |evs| { assert Linked(states, evs, k); }
    }
    assert Trace(from, more, all, Next(s, ev));
  }

  // ----- the legacy route -------------------------------------------------------------------

  /** Ownership as it should be, except that `x` works under the lock without having looked. */
  ghost predicate OwnBut(s: State, x: nat) {
    && x < |s.procs| && s.lock == Some(x) && HoldsLock(s.procs[x].pc) && !Owns(s.procs[x].pc) && s.owner != Some(x)
    && (s.flag <==> s.owner.Some?) && (s.owner.Some? ==> s.owner.value < |s.procs|)
    && forall j | 0 <= j < |s.procs| && j != x :: ProcOwn(s, j)
  }

  lemma ButExclusive(s: State, x: nat)
    requires OwnBut(s, x)
    ensures Exclusive(s)
  {
    forall i: nat | Answers(s, i) ensures s.owner == Some(i) { assert i != x ==> ProcOwn(s, i); }
    if s.owner.Some? { assert ProcOwn(s, s.owner.value) && Answers(s, s.owner.value); }
  }

  /** Others cannot touch the flag while the lock is taken. */
  lemma ButMove(s: State, x: nat, i: nat)
    requires OwnBut(s, x) && i != x && Enabled(s, Go(i)) && FamilyOf(s.procs[i].pc) != Spawning
    ensures OwnMoved(s, i, Step(s, i))
  {
    assert ProcOwn(s, i) && Calm(s, i);
    match FamilyOf(s.procs[i].pc)
    case Sending => OwnSend(s, i);
    case Claiming => OwnClaim(s, i);
    case Adding => OwnAdd(s, i);
    case Running => OwnRun(s, i);
    case Kicking => OwnKick(s, i);
    case Draining => OwnDrain(s, i);
    case Clearing => OwnClear(s, i);
    case Truncating => OwnCut(s, i);
  }

  lemma ButApply(s: State, x: nat, i: nat, m: Move)
    requires OwnBut(s, x) && i < |s.procs| && i != x && ProcOwn(s, i) && OwnMoved(s, i, m)
    ensures var t := Set(m.after.(procs := s.procs), i, m.pc);
            OwnBut(t, x) && t.flag == s.flag && t.procs[x] == s.procs[x]
  {
    var t := Set(m.after.(procs := s.procs), i, m.pc);
    forall j | 0 <= j < |s.procs| && j != x ensures ProcOwn(t, j) { assert ProcOwn(s, j); }
  }

  lemma ButSpawn(s: State, x: nat, i: nat, task: Pc)
    requires OwnBut(s, x) && i < |s.procs| && i != x && FamilyOf(s.procs[i].pc) == Spawning && task in {DrainMode, Turn}
    ensures var t := Spawn(s, i, task); OwnBut(t, x) && t.flag == s.flag && t.procs[x] == s.procs[x]
  {
    var t := Spawn(s, i, task);
    assert ProcOwn(s, i);
    forall j | 0 <= j < |t.procs| && j != x ensures ProcOwn(t, j) {
      if j < |s.procs| { assert ProcOwn(s, j); }
    }
  }

  lemma ButGo(s: State, x: nat, i: nat)
    requires OwnBut(s, x) && i != x && Enabled(s, Go(i))
    ensures var t := GoStep(s, i); OwnBut(t, x) && t.flag == s.flag && t.procs[x] == s.procs[x]
  {
    if FamilyOf(s.procs[i].pc) == Spawning {
      ButSpawn(s, x, i, if s.procs[i].pc.SpawnDrain? then DrainMode else Turn);
    } else {
      assert ProcOwn(s, i);
      ButMove(s, x, i);
      ButApply(s, x, i, Step(s, i));
    }
  }

  /** Storing its prompt and not yet claiming, or claiming next. */
  predicate LegacyAtWork(pc: Pc) {
    || ((pc.AddMax? || pc.AddInsert? || pc.AddIngest?) && pc.who == ByLegacy)
    || pc == Claim(ToTurn)
  }

  predicate LegacyPast(pc: Pc) {
    pc == Unlock(ToTurn) || pc == SpawnTurn || pc == Done
  }

  ghost predicate LegacyKept(s: State, x: nat, flag: bool) {
    && x < |s.procs|
    && ((LegacyAtWork(s.procs[x].pc) && OwnBut(s, x) && s.flag == flag) || LegacyPast(s.procs[x].pc))
  }

  lemma LegacyOwnStep(s: State, x: nat)
    requires OwnBut(s, x) && LegacyAtWork(s.procs[x].pc)
    ensures var t := GoStep(s, x);
            || t.procs[x].pc == Unlock(ToTurn)
            || (LegacyAtWork(t.procs[x].pc) && OwnBut(t, x) && t.flag == s.flag)
  {
    var t := GoStep(s, x);
    assert forall j | 0 <= j < |s.procs| && j != x :: t.procs[j] == s.procs[j];
    if s.procs[x].pc != Claim(ToTurn) {
      forall j | 0 <= j < |s.procs| && j != x ensures ProcOwn(t, j) { assert ProcOwn(s, j); }
    }
  }

  lemma LegacyStep(s: State, ev: Event, x: nat, flag: bool)
    requires LegacyKept(s, x, flag) && Enabled(s, ev) && !ev.Crash?
    ensures LegacyKept(Next(s, ev), x, flag)
  {
    var t := Next(s, ev);
    if LegacyPast(s.procs[x].pc) {
      LegacyStaysPast(s, ev, x);
    } else if ev.Go? {
      if ev.i == x { LegacyOwnStep(s, x); } else { ButGo(s, x, ev.i); }
    } else {
      forall j | 0 <= j < |t.procs| && j != x ensures ProcOwn(t, j) { assert j < |s.procs| ==> ProcOwn(s, j); }
    }
  }

  lemma LegacyStaysPast(s: State, ev: Event, x: nat)
    requires x < |s.procs| && LegacyPast(s.procs[x].pc) && Enabled(s, ev) && !ev.Crash?
    ensures x < |Next(s, ev).procs| && LegacyPast(Next(s, ev).procs[x].pc)
  {
  }

  lemma {:induction false} LegacyTrace(from: State, states: seq<State>, evs: seq<Event>, s: State, x: nat, flag: bool,
      k: nat)
    requires Trace(from, states, evs, s) && k <= |evs| && LegacyKept(from, x, flag)
    requires forall ev | ev in evs :: !ev.Crash?
    ensures LegacyKept(states[k], x, flag)
  {
    if k > 0 {
      LegacyTrace(from, states, evs, s, x, flag, k - 1);
      assert Linked(states, evs, k - 1);
      assert evs[k - 1] in evs;
      LegacyStep(states[k - 1], evs[k - 1], x, flag);
    }
  }

  lemma LegacyLocks(s: State, x: nat)
    requires OwnInv(s) && Enabled(s, Go(x)) && s.procs[x].pc.LegacyLock?
    ensures LegacyKept(GoStep(s, x), x, s.flag)
  {
    var t := GoStep(s, x);
    assert ProcOwn(s, x);
    forall j | 0 <= j < |s.procs| && j != x ensures ProcOwn(t, j) { assert ProcOwn(s, j); }
  }

  /** A claim keeps the chat exclusive exactly when it finds the flag clear. */
  lemma ClaimExclusiveIff(s: State, x: nat)
    requires Exclusive(s) && x < |s.procs| && s.procs[x].pc == Claim(ToTurn)
    ensures Exclusive(GoStep(s, x)) <==> !s.flag
  {
    var t := GoStep(s, x);
    assert Answers(t, x) && !Answers(s, x);
    assert forall j: nat | j < |s.procs| && j != x :: t.procs[j] == s.procs[j];
    if s.flag {
      var o: nat :| Answers(s, o);
      assert o != x && Answers(t, o);
    } else {
      assert forall j: nat :: Answers(t, j) ==> j == x || Answers(s, j);
    }
  }

  /** The legacy `add_prompt` takes the flag unasked. Whatever else happens between its lock and
      its claim, `t` being the state at the claim, the claim is safe if and only if the flag was
      clear when it got the lock. */
  lemma LegacySafeIff(s: State, evs: seq<Event>, t: State, x: nat)
    requires OwnInv(s) && Enabled(s, Go(x)) && s.procs[x].pc.LegacyLock?
    requires Reached(Next(s, Go(x)), evs, t) && forall ev | ev in evs :: !ev.Crash?
    requires x < |t.procs| && t.procs[x].pc == Claim(ToTurn)
    ensures Exclusive(Next(t, Go(x))) <==> !s.flag
  {
    var from := Next(s, Go(x));
    LegacyLocks(s, x);
    var states :| Trace(from, states, evs, t);
    LegacyTrace(from, states, evs, t, x, s.flag, |evs|);
    ButExclusive(t, x);
    ClaimExclusiveIff(t, x);
  }
}
