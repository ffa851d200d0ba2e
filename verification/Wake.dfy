/** No stranded item: in auto mode a pending message always has someone coming for it. */
module Wake {
  import opened Util
  import opened QueueStore
  import opened Protocol
  import opened Ownership
  import opened Invariant

  /** The process will still look at the queue in auto mode, or take the flag. */
  predicate Responsible(pc: Pc) {
    match pc
    case KickLock => true
    case KickCheck => true
    case KickMode => true
    case KickRead => true
    case EnqMode => true
    case Claim(_) => true
    case _ => false
  }

  /** The owner has decided to release the flag. */
  predicate Releasing(s: State) {
    s.owner.Some? && s.owner.value < |s.procs| && s.procs[s.owner.value].pc.ClearRemove?
  }

  predicate Stranded(s: State) {
    s.auto && HasPending(s.queue) && (!s.flag || Releasing(s))
  }

  ghost predicate Watched(s: State, w: nat) {
    w < |s.procs| && Responsible(s.procs[w].pc)
  }

  predicate Posts(pc: Pc) {
    pc.PostMax? || pc.PostInsert?
  }

  ghost predicate WakeInv(s: State) {
    && (Stranded(s) ==> exists w: nat :: Watched(s, w))
    && forall i | 0 <= i < |s.procs| :: !Posts(s.procs[i].pc)
  }

  /** Runs in which every enqueue goes through smart send, and a restart finds no backlog that
      auto mode would have to drain. */
  predicate Kicked(s: State, ev: Event) {
    match ev
    case Arrive(req) => !req.Post?
    case Crash => !s.auto || s.queue == []
    case _ => true
  }

  ghost predicate AllKicked(s: State, evs: seq<Event>)
    requires Valid(s, evs)
    decreases |evs|
  {
    evs == [] || (Kicked(s, evs[0]) && AllKicked(Next(s, evs[0]), evs[1..]))
  }

  predicate StrandedAfter(s: State, i: nat, m: Move) {
    && m.after.auto && HasPending(m.after.queue)
    && (!m.after.flag || (if m.after.owner == Some(i) then m.pc.ClearRemove? else Releasing(m.after)))
  }

  /** A step that strands an item, or was the one watching a stranded item, still watches. */
  predicate WakeMoved(s: State, i: nat, m: Move)
    requires i < |s.procs|
  {
    && (StrandedAfter(s, i, m) && (!Stranded(s) || Responsible(s.procs[i].pc)) ==> Responsible(m.pc))
    && !Posts(m.pc)
  }

  predicate WakeCalm(s: State, i: nat) {
    && Calm(s, i) && !Posts(s.procs[i].pc)
    && (Releasing(s) ==> s.lock == s.owner)
  }

  lemma WakeApply(s: State, i: nat, m: Move)
    requires WakeInv(s) && i < |s.procs| && WakeMoved(s, i, m)
    requires m.after.procs == s.procs
    ensures WakeInv(Set(m.after.(procs := s.procs), i, m.pc))
  {
    var t := Set(m.after.(procs := s.procs), i, m.pc);
    if Stranded(t) {
      if Stranded(s) && !Responsible(s.procs[i].pc) {
        var w: nat :| Watched(s, w);
        assert Watched(t, w);
      } else {
        assert Watched(t, i);
      }
    }
  }

  lemma WakeSpawned(s: State, i: nat)
    requires OwnInv(s) && WakeInv(s) && i < |s.procs| && FamilyOf(s.procs[i].pc) == Spawning
    ensures WakeInv(GoStep(s, i))
  {
    assert ProcOwn(s, i);
  }

  lemma PendingKept(q: seq<Row>, id: nat)
    ensures HasPending(Delete(q, id, true)) ==> HasPending(q)
  {
    if HasPending(Delete(q, id, true)) {
      var r := Delete(q, id, true);
      var k :| 0 <= k < |r| && !r[k].running;
      match Find(q, id)
      case Some(f) => assert !q[if r == q || k < f then k else k + 1].running;
      case None =>
    }
  }

  lemma PendingPopped(q: seq<Row>, k: nat)
    requires k < |q|
    ensures HasPending(MarkRunning(q, k)) ==> HasPending(q)
  {
    if HasPending(MarkRunning(q, k)) {
      var j :| 0 <= j < |q| && !MarkRunning(q, k)[j].running;
      assert !q[j].running;
    }
  }

  lemma WakeSend(s: State, i: nat)
    requires WakeCalm(s, i) && FamilyOf(s.procs[i].pc) == Sending
    ensures WakeMoved(s, i, GoSend(s, i))
  {
  }

  lemma WakeClaim(s: State, i: nat)
    requires WakeCalm(s, i) && FamilyOf(s.procs[i].pc) == Claiming
    ensures WakeMoved(s, i, GoClaim(s, i))
  {
  }

  lemma WakeAdd(s: State, i: nat)
    requires WakeCalm(s, i) && FamilyOf(s.procs[i].pc) == Adding
    ensures WakeMoved(s, i, GoAdd(s, i))
  {
  }

  lemma WakeRun(s: State, i: nat)
    requires WakeCalm(s, i) && FamilyOf(s.procs[i].pc) == Running
    ensures WakeMoved(s, i, GoRun(s, i))
  {
    match s.procs[i].pc
    case RunPop(pick) =>
      var k := if pick.None? then Head(s.queue) else FindPending(s.queue, pick.value);
      if k.Some? { PendingPopped(s.queue, k.value); }
    case RunMarkDone(m) => PendingKept(s.queue, m.id);
    case _ =>
  }

  lemma WakeKick(s: State, i: nat)
    requires WakeCalm(s, i) && FamilyOf(s.procs[i].pc) == Kicking
    ensures WakeMoved(s, i, GoKick(s, i))
  {
  }

  lemma WakeDrain(s: State, i: nat)
    requires WakeCalm(s, i) && FamilyOf(s.procs[i].pc) == Draining
    ensures WakeMoved(s, i, GoDrain(s, i))
  {
    match s.procs[i].pc
    case DrainPop => if HasPending(s.queue) { PendingPopped(s.queue, Head(s.queue).value); }
    case DrainMarkDone(m) => PendingKept(s.queue, m.id);
    case _ =>
  }

  lemma WakeClear(s: State, i: nat)
    requires WakeCalm(s, i) && FamilyOf(s.procs[i].pc) == Clearing
    ensures WakeMoved(s, i, GoClear(s, i))
  {
  }

  lemma WakeCut(s: State, i: nat)
    requires WakeCalm(s, i) && FamilyOf(s.procs[i].pc) == Truncating
    ensures WakeMoved(s, i, GoCut(s, i))
  {
  }

  lemma WakeFamilies(s: State, i: nat)
    requires WakeCalm(s, i) && FamilyOf(s.procs[i].pc) !in {Ended, Spawning}
    ensures WakeMoved(s, i, Step(s, i))
  {
    match FamilyOf(s.procs[i].pc)
    case Sending => WakeSend(s, i);
    case Claiming => WakeClaim(s, i);
    case Adding => WakeAdd(s, i);
    case Running => WakeRun(s, i);
    case Kicking => WakeKick(s, i);
    case Draining => WakeDrain(s, i);
    case Clearing => WakeClear(s, i);
    case Truncating => WakeCut(s, i);
  }

  lemma StepKeepsProcs(s: State, i: nat)
    requires i < |s.procs|
    ensures Step(s, i).after.procs == s.procs
  {
  }

  lemma WakeGo(s: State, i: nat)
    requires OwnInv(s) && WakeInv(s) && Enabled(s, Go(i)) && Disciplined(s, Go(i))
    ensures WakeInv(GoStep(s, i))
  {
    assert ProcOwn(s, i);
    var o := if s.owner.Some? then s.owner.value else i;
    assert ProcOwn(s, o);
    if FamilyOf(s.procs[i].pc) == Spawning {
      WakeSpawned(s, i);
    } else {
      WakeFamilies(s, i);
      StepKeepsProcs(s, i);
      WakeApply(s, i, Step(s, i));
    }
  }

  lemma WakeRows(s: State, q: seq<Row>, cancelled: seq<nat>)
    requires WakeInv(s) && (HasPending(q) ==> HasPending(s.queue))
    ensures WakeInv(s.(queue := q, cancelled := cancelled))
  {
    if Stranded(s.(queue := q, cancelled := cancelled)) {
      var w: nat :| Watched(s, w);
      assert Watched(s.(queue := q, cancelled := cancelled), w);
    }
  }

  lemma PendingCancelled(q: seq<Row>, id: nat)
    ensures HasPending(Delete(q, id, false)) ==> HasPending(q)
  {
    var r := Delete(q, id, false);
    if HasPending(r) {
      var k :| 0 <= k < |r| && !r[k].running;
      match Find(q, id)
      case Some(f) => assert !q[if r == q || k < f then k else k + 1].running;
      case None =>
    }
  }

  lemma PendingRewritten(q: seq<Row>, r: seq<Row>)
    requires |r| == |q| && forall k | 0 <= k < |q| :: r[k].running == q[k].running
    ensures HasPending(r) ==> HasPending(q)
  {
    if HasPending(r) {
      var k :| 0 <= k < |r| && !r[k].running;
      assert !q[k].running;
    }
  }

  lemma WakeArrive(s: State, req: Request)
    requires WakeInv(s) && OwnInv(s) && Enabled(s, Arrive(req)) && !req.Post?
    ensures WakeInv(Next(s, Arrive(req)))
  {
    var t := Next(s, Arrive(req));
    if Stranded(t) {
      assert Stranded(s);
      var w: nat :| Watched(s, w);
      assert Watched(t, w);
    }
  }

  lemma WakeStep(s: State, ev: Event)
    requires Inv(s) && WakeInv(s) && Enabled(s, ev) && Disciplined(s, ev) && Kicked(s, ev)
    ensures WakeInv(Next(s, ev))
  {
    match ev
    case Go(i) => WakeGo(s, i);
    case Arrive(req) => WakeArrive(s, req);
    case Cancel(id) =>
      PendingCancelled(s.queue, id);
      WakeRows(s, CancelStep(s, id).queue, CancelStep(s, id).cancelled);
    case Edit(id, body) =>
      PendingRewritten(s.queue, UpdateBody(s.queue, id, body));
      WakeRows(s, UpdateBody(s.queue, id, body), s.cancelled);
    case Reordering(ids) =>
      PendingRewritten(s.queue, Reorder(s.queue, ids));
      WakeRows(s, Reorder(s.queue, ids), s.cancelled);
    case Crash =>
  }

  lemma {:induction false} WakeRunKeeps(s: State, evs: seq<Event>)
    requires Inv(s) && WakeInv(s) && Valid(s, evs) && AllKicked(s, evs)
    ensures Inv(Run(s, evs)) && WakeInv(Run(s, evs))
    decreases |evs|
  {
    if evs != [] {
      InvStep(s, evs[0]);
      WakeStep(s, evs[0]);
      WakeRunKeeps(Next(s, evs[0]), evs[1..]);
    }
  }

  /** Whenever the chat is in auto mode with a pending item and nobody holds its flag, some
      handler has yet to run its kick or has already decided to take the flag. The same holds
      while the owner is about to release it, so a mode write that lands between the two
      reads of the release is not lost. */
  lemma NoLostWakeUp(evs: seq<Event>)
    requires Valid(IDLE, evs) && AllKicked(IDLE, evs)
    ensures var s := Run(IDLE, evs); s.auto && HasPending(s.queue) && !s.flag ==> exists w: nat :: Watched(s, w)
    ensures var s := Run(IDLE, evs); s.auto && HasPending(s.queue) && Releasing(s) ==> exists w: nat :: Watched(s, w)
  {
    InvIdle();
    WakeRunKeeps(IDLE, evs);
  }
}
