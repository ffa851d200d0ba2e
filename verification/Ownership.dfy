/**
 Who may act: the flag is set exactly while one process answers for it, and the lock
 is held exactly by the process inside a critical section.
 */
module Ownership {
  import opened Util
  import opened QueueStore
  import opened Protocol

  predicate ProcOwn(s: State, i: nat)
    requires i < |s.procs|
  {
    var pc := s.procs[i].pc;
    && (HoldsLock(pc) <==> s.lock == Some(i))
    && (Owns(pc) <==> s.owner == Some(i))
    && (SawIdle(pc) ==> !s.flag)
    && (SawBusy(pc) ==> s.flag)
    && (pc.Claim? ==> pc.next != Return && pc.next != ToDrainAgain)
  }

  ghost predicate OwnInv(s: State) {
    && (s.flag <==> s.owner.Some?)
    && (s.lock.Some? ==> s.lock.value < |s.procs|)
    && (s.owner.Some? ==> s.owner.value < |s.procs|)
    && forall i | 0 <= i < |s.procs| :: ProcOwn(s, i)
  }

  lemma OwnStep(s: State, ev: Event)
    requires OwnInv(s) && Enabled(s, ev) && Disciplined(s, ev)
    ensures OwnInv(Next(s, ev))
  {
    var t := Next(s, ev);
    if ev.Go? {
      OwnGo(s, ev.i);
    } else {
      forall j | 0 <= j < |t.procs| ensures ProcOwn(t, j) {
        assert j < |s.procs| ==> ProcOwn(s, j);
      }
    }
  }

  /** A move that touches the lock, the flag and the owner only on the process's own behalf,
      and leaves the process in the role they say it has. */
  predicate OwnMoved(s: State, i: nat, m: Move) {
    var t := m.after;
    && (t.lock == s.lock || (Mine(s.lock, i) && Mine(t.lock, i)))
    && (t.owner == s.owner || (Mine(s.owner, i) && Mine(t.owner, i)))
    && (t.flag == s.flag || s.lock == Some(i))
    && (t.flag <==> t.owner.Some?)
    && (HoldsLock(m.pc) <==> t.lock == Some(i))
    && (Owns(m.pc) <==> t.owner == Some(i))
    && (SawIdle(m.pc) ==> !t.flag)
    && (SawBusy(m.pc) ==> t.flag)
    && (m.pc.Claim? ==> m.pc.next != Return && m.pc.next != ToDrainAgain)
  }

  /** What a group of steps needs to know about the state. */
  predicate Calm(s: State, i: nat) {
    && i < |s.procs| && ProcOwn(s, i)
    && (s.flag <==> s.owner.Some?)
    && (Locks(s.procs[i].pc) ==> s.lock.None?)
    && (Blind(s.procs[i].pc) ==> !s.flag)
  }

  lemma OwnSend(s: State, i: nat)
    requires Calm(s, i) && FamilyOf(s.procs[i].pc) == Sending
    ensures OwnMoved(s, i, GoSend(s, i))
  {
  }

  lemma OwnClaim(s: State, i: nat)
    requires Calm(s, i) && FamilyOf(s.procs[i].pc) == Claiming
    ensures OwnMoved(s, i, GoClaim(s, i))
  {
  }

  lemma OwnAdd(s: State, i: nat)
    requires Calm(s, i) && FamilyOf(s.procs[i].pc) == Adding
    ensures OwnMoved(s, i, GoAdd(s, i))
  {
  }

  lemma OwnRun(s: State, i: nat)
    requires Calm(s, i) && FamilyOf(s.procs[i].pc) == Running
    ensures OwnMoved(s, i, GoRun(s, i))
  {
  }

  lemma OwnKick(s: State, i: nat)
    requires Calm(s, i) && FamilyOf(s.procs[i].pc) == Kicking
    ensures OwnMoved(s, i, GoKick(s, i))
  {
  }

  /** The task that answers for the flag goes on to something it does in that role. */
  lemma OwnTask(s: State, i: nat, m: Move)
    requires Calm(s, i) && s.owner == Some(i) && s.lock != Some(i)
    requires m.after.lock == s.lock && m.after.owner == s.owner && m.after.flag == s.flag
    requires Owns(m.pc) && !HoldsLock(m.pc) && !m.pc.Claim?
    ensures OwnMoved(s, i, m)
  {
  }

  lemma OwnDrain(s: State, i: nat)
    requires Calm(s, i) && FamilyOf(s.procs[i].pc) == Draining
    ensures OwnMoved(s, i, GoDrain(s, i))
  {
    if s.procs[i].pc.DrainPop? { OwnPop(s, i, Head(s.queue)); } else { OwnTask(s, i, GoDrain(s, i)); }
  }

  lemma OwnPop(s: State, i: nat, k: Option<nat>)
    requires Calm(s, i) && s.procs[i].pc.DrainPop? && (k.Some? ==> k.value < |s.queue|)
    ensures OwnMoved(s, i, Popped(s, i, k, true))
  {
    OwnTask(s, i, Popped(s, i, k, true));
  }

  lemma OwnClear(s: State, i: nat)
    requires Calm(s, i) && FamilyOf(s.procs[i].pc) == Clearing
    ensures OwnMoved(s, i, GoClear(s, i))
  {
  }

  lemma OwnCut(s: State, i: nat)
    requires Calm(s, i) && FamilyOf(s.procs[i].pc) == Truncating
    ensures OwnMoved(s, i, GoCut(s, i))
  {
  }

  lemma OwnGo(s: State, i: nat)
    requires OwnInv(s) && Enabled(s, Go(i)) && Disciplined(s, Go(i))
    ensures OwnInv(GoStep(s, i))
  {
    var pc := s.procs[i].pc;
    assert ProcOwn(s, i);
    match FamilyOf(pc)
    case Spawning => OwnSpawned(s, i);
    case Sending => OwnSend(s, i); OwnApply(s, i, Step(s, i));
    case Claiming => OwnClaim(s, i); OwnApply(s, i, Step(s, i));
    case Adding => OwnAdd(s, i); OwnApply(s, i, Step(s, i));
    case Running => OwnRun(s, i); OwnApply(s, i, Step(s, i));
    case Kicking => OwnKick(s, i); OwnApply(s, i, Step(s, i));
    case Draining => OwnDrain(s, i); OwnApply(s, i, Step(s, i));
    case Clearing => OwnClear(s, i); OwnApply(s, i, Step(s, i));
    case Truncating => OwnCut(s, i); OwnApply(s, i, Step(s, i));
  }

  lemma OwnApply(s: State, i: nat, m: Move)
    requires OwnInv(s) && i < |s.procs| && OwnMoved(s, i, m)
    ensures OwnInv(Set(m.after.(procs := s.procs), i, m.pc))
  {
    var t := Set(m.after.(procs := s.procs), i, m.pc);
    forall j | 0 <= j < |s.procs| ensures ProcOwn(t, j) {
      assert ProcOwn(s, j);
    }
  }

  lemma OwnSpawned(s: State, i: nat)
    requires OwnInv(s) && i < |s.procs| && FamilyOf(s.procs[i].pc) == Spawning
    ensures OwnInv(GoStep(s, i))
  {
    assert ProcOwn(s, i);
    forall j | 0 <= j < |s.procs| ensures ProcOwn(GoStep(s, i), j) {
      assert ProcOwn(s, j);
    }
  }

  /** Holds the right to change the chat's turns: it answers for the flag, or it saw it clear
      under the lock. */
  predicate Excl(pc: Pc) {
    Owns(pc) || SawIdle(pc)
  }

  lemma ExclUnique(s: State, i: nat, j: nat)
    requires OwnInv(s) && i < |s.procs| && j < |s.procs| && Excl(s.procs[i].pc) && Excl(s.procs[j].pc)
    ensures i == j
  {
    assert ProcOwn(s, i) && ProcOwn(s, j);
  }
}
