/** Scheduled messages never pile up: the ticker checks the queue and then sends, without a
    lock around the two, and a drain may put its popped copy back in between; still there are
    never more than two copies of a scheduled body in the queue. */
module Schedules {
  import opened Util
  import opened QueueStore
  import opened Protocol
  import opened Ledger
  import opened Invariant

  /** Rows with this body, pending or running. */
  function Copies(q: seq<Row>, body: string): nat {
    if q == [] then 0
    else Copies(q[..|q| - 1], body) + if q[|q| - 1].body == body then 1 else 0
  }

  /** Nobody but the ticker brings this body into the queue. */
  predicate OnlyTicked(body: string, ev: Event) {
    match ev
    case Arrive(req) => (req.Send? || req.Legacy? || req.Post?) ==> req.body != body
    case Edit(_, text) => text != body
    case _ => true
  }

  predicate Checked(pc: Pc, body: string) {
    !pc.TickCheck? && Carried(pc).Some? && Carried(pc).value.body == body
  }

  predicate ProcTick(s: State, i: nat, body: string)
    requires i < |s.procs|
  {
    var p := s.procs[i];
    && (Carried(p.pc).Some? && Carried(p.pc).value.body == body ==> p.tick)
    && (p.tick && !p.pc.Done? ==> s.ticker == Some(i))
    && (Checked(p.pc, body) ==> Copies(s.queue, body) <= 1)
  }

  ghost predicate TickInv(s: State, body: string) {
    && Copies(s.queue, body) <= 2
    && (s.ticker.Some? ==> s.ticker.value < |s.procs|)
    && forall i | 0 <= i < |s.procs| :: ProcTick(s, i, body)
  }

  lemma {:induction false} CopiesUpdate(q: seq<Row>, k: nat, r: Row, body: string)
    requires k < |q|
    ensures Copies(q[k := r], body) == Copies(q, body) - (if q[k].body == body then 1 else 0)
        + (if r.body == body then 1 else 0)
  {
    var n := |q| - 1;
    if k < n {
      CopiesUpdate(q[..n], k, r, body);
      assert q[k := r][..n] == q[..n][k := r];
    } else {
      assert q[k := r][..n] == q[..n];
    }
  }

  lemma {:induction false} CopiesRemove(q: seq<Row>, k: nat, body: string)
    requires k < |q|
    ensures Copies(RemoveAt(q, k), body) == Copies(q, body) - if q[k].body == body then 1 else 0
  {
    var n := |q| - 1;
    if k < n {
      CopiesRemove(q[..n], k, body);
      assert RemoveAt(q, k)[..n - 1] == RemoveAt(q[..n], k);
    } else {
      assert RemoveAt(q, k) == q[..n];
    }
  }

  lemma {:induction false} CopiesSame(q: seq<Row>, r: seq<Row>, body: string)
    requires |r| == |q| && forall k | 0 <= k < |q| :: r[k].body == q[k].body
    ensures Copies(r, body) == Copies(q, body)
  {
    if q != [] { CopiesSame(q[..|q| - 1], r[..|r| - 1], body); }
  }

  lemma {:induction false} CopiesNone(q: seq<Row>, body: string)
    requires forall k | 0 <= k < |q| :: q[k].body != body
    ensures Copies(q, body) == 0
  {
    if q != [] { CopiesNone(q[..|q| - 1], body); }
  }

  lemma {:induction false} CopiesOne(q: seq<Row>, body: string)
    requires forall i, j | 0 <= i < j < |q| :: q[i].body != body || q[j].body != body
    ensures Copies(q, body) <= 1
  {
    if q != [] {
      var n := |q| - 1;
      if q[n].body == body {
        CopiesNone(q[..n], body);
      } else {
        CopiesOne(q[..n], body);
      }
    }
  }

  /** The check that no copy is pending leaves at most the one that is running. */
  lemma CheckLeavesOne(q: seq<Row>, held: Option<Held>, accepted: seq<nat>, body: string)
    requires RowsOk(q, held, accepted) && !PendingBody(q, body)
    ensures Copies(q, body) <= 1
  {
    forall i, j | 0 <= i < j < |q| ensures q[i].body != body || q[j].body != body {
      assert q[i].id != q[j].id;
    }
    CopiesOne(q, body);
  }

  ghost predicate TickMoved(s: State, i: nat, m: Move, body: string)
    requires i < |s.procs|
  {
    var tick := s.procs[i].tick;
    && m.after.ticker == s.ticker
    && (Carried(m.pc).Some? && Carried(m.pc).value.body == body ==> tick)
    && (Checked(m.pc, body) ==> Copies(m.after.queue, body) <= 1)
    && (Copies(m.after.queue, body) <= Copies(s.queue, body)
        || (tick && !s.procs[i].pc.Done? && Copies(m.after.queue, body) <= 2))
  }

  lemma TickApply(s: State, i: nat, m: Move, body: string)
    requires TickInv(s, body) && i < |s.procs| && !s.procs[i].pc.Done? && TickMoved(s, i, m, body)
    ensures TickInv(Set(m.after.(procs := s.procs), i, m.pc), body)
  {
    var t := Set(m.after.(procs := s.procs), i, m.pc);
    assert ProcTick(s, i, body);
    forall j | 0 <= j < |s.procs| ensures ProcTick(t, j, body) {
      assert ProcTick(s, j, body);
    }
  }

  lemma TickCheckStep(s: State, i: nat, body: string)
    requires i < |s.procs| && s.procs[i].pc.TickCheck? && ProcTick(s, i, body) && RowsOk(s.queue, s.held, s.accepted)
    ensures TickMoved(s, i, Step(s, i), body)
  {
    if s.procs[i].pc.m.body == body && !PendingBody(s.queue, body) {
      CheckLeavesOne(s.queue, s.held, s.accepted, body);
    }
  }

  lemma TickInsert(s: State, i: nat, body: string)
    requires i < |s.procs| && ProcTick(s, i, body) && (s.procs[i].pc.EnqInsert? || s.procs[i].pc.PostInsert?)
        && Copies(s.queue, body) <= 2
    ensures TickMoved(s, i, Step(s, i), body)
  {
    var pc := s.procs[i].pc;
    var r := Row(pc.m.id, pc.m.body, false, pc.pos);
    assert (s.queue + [r])[..|s.queue|] == s.queue;
  }

  predicate Rewrites(pc: Pc) {
    pc.RunPop? || pc.DrainPop? || pc.DrainReset? || pc.RunMarkDone? || pc.DrainMarkDone?
  }

  lemma CopiesDeleted(q: seq<Row>, id: nat, running: bool, body: string)
    ensures Copies(Delete(q, id, running), body) <= Copies(q, body)
  {
    match Find(q, id)
    case Some(k) => CopiesRemove(q, k, body);
    case None =>
  }

  /** Pops, resets and deletions bring no new copy. */
  lemma TickPop(s: State, i: nat, k: Option<nat>, drain: bool, body: string)
    requires i < |s.procs| && (k.Some? ==> k.value < |s.queue|)
    ensures Copies(Popped(s, i, k, drain).after.queue, body) <= Copies(s.queue, body)
  {
    if k.Some? { CopiesUpdate(s.queue, k.value, s.queue[k.value].(running := true), body); }
  }

  lemma TickRunPop(s: State, i: nat, body: string)
    requires i < |s.procs| && s.procs[i].pc.RunPop?
    ensures Copies(GoRun(s, i).after.queue, body) <= Copies(s.queue, body)
  {
    var pick := s.procs[i].pc.pick;
    var k := if pick.None? then Head(s.queue) else FindPending(s.queue, pick.value);
    TickPop(s, i, k, false, body);
    assert GoRun(s, i) == Popped(s, i, k, false);
  }

  lemma CopiesReset(q: seq<Row>, id: nat, body: string)
    ensures Copies(Reset(q, id), body) == Copies(q, body)
  {
    match Find(q, id)
    case Some(k) => if q[k].running { CopiesUpdate(q, k, q[k].(running := false), body); }
    case None =>
  }

  lemma TickDrainRewrite(s: State, i: nat, body: string)
    requires i < |s.procs| && (s.procs[i].pc.DrainPop? || s.procs[i].pc.DrainReset? || s.procs[i].pc.DrainMarkDone?)
    ensures Copies(GoDrain(s, i).after.queue, body) <= Copies(s.queue, body)
  {
    var pc := s.procs[i].pc;
    if pc.DrainPop? { TickPop(s, i, Head(s.queue), true, body); }
    else if pc.DrainReset? { CopiesReset(s.queue, pc.m.id, body); }
    else { CopiesDeleted(s.queue, pc.m.id, true, body); }
  }

  lemma TickRunDone(s: State, i: nat, body: string)
    requires i < |s.procs| && s.procs[i].pc.RunMarkDone?
    ensures Copies(GoRun(s, i).after.queue, body) <= Copies(s.queue, body)
  {
    CopiesDeleted(s.queue, s.procs[i].pc.m.id, true, body);
  }

  lemma TickRewrite(s: State, i: nat, body: string)
    requires i < |s.procs| && Rewrites(s.procs[i].pc)
    ensures Copies(Step(s, i).after.queue, body) <= Copies(s.queue, body)
  {
    if FamilyOf(s.procs[i].pc) == Draining { TickDrainRewrite(s, i, body); } else { TickRunRewrite(s, i, body); }
  }

  lemma TickRunRewrite(s: State, i: nat, body: string)
    requires i < |s.procs| && (s.procs[i].pc.RunPop? || s.procs[i].pc.RunMarkDone?)
    ensures Copies(GoRun(s, i).after.queue, body) <= Copies(s.queue, body)
  {
    if s.procs[i].pc.RunPop? { TickRunPop(s, i, body); } else { TickRunDone(s, i, body); }
  }

  lemma RewriteCarriesNothing(s: State, i: nat)
    requires i < |s.procs| && Rewrites(s.procs[i].pc)
    ensures Carried(Step(s, i).pc).None? && Step(s, i).after.ticker == s.ticker
  {
  }

  /** A step that neither checks nor rewrites rows hands on what it carries. */
  predicate Quiet(s: State, i: nat, m: Move)
    requires i < |s.procs|
  {
    && m.after.queue == s.queue && m.after.ticker == s.ticker && !m.pc.TickCheck?
    && (Carried(m.pc).Some? ==> Carried(m.pc) == Carried(s.procs[i].pc))
  }

  lemma QuietSend(s: State, i: nat)
    requires i < |s.procs| && FamilyOf(s.procs[i].pc) == Sending && !s.procs[i].pc.TickCheck?
        && !s.procs[i].pc.EnqInsert? && !s.procs[i].pc.PostInsert?
    ensures Quiet(s, i, GoSend(s, i))
  {
  }

  lemma QuietAdd(s: State, i: nat)
    requires i < |s.procs| && FamilyOf(s.procs[i].pc) == Adding
    ensures Quiet(s, i, GoAdd(s, i))
  {
  }

  lemma QuietRun(s: State, i: nat)
    requires i < |s.procs| && FamilyOf(s.procs[i].pc) == Running && !Rewrites(s.procs[i].pc)
    ensures Quiet(s, i, GoRun(s, i))
  {
  }

  lemma QuietDrain(s: State, i: nat)
    requires i < |s.procs| && FamilyOf(s.procs[i].pc) == Draining && !Rewrites(s.procs[i].pc)
    ensures Quiet(s, i, GoDrain(s, i))
  {
  }

  lemma QuietCut(s: State, i: nat)
    requires i < |s.procs| && FamilyOf(s.procs[i].pc) == Truncating
    ensures Quiet(s, i, GoCut(s, i))
  {
  }

  lemma QuietOther(s: State, i: nat)
    requires i < |s.procs| && FamilyOf(s.procs[i].pc) in {Claiming, Kicking, Clearing}
    ensures Quiet(s, i, Step(s, i))
  {
  }

  lemma TickMove(s: State, i: nat, body: string)
    requires i < |s.procs| && FamilyOf(s.procs[i].pc) !in {Ended, Spawning}
    requires ProcTick(s, i, body) && Copies(s.queue, body) <= 2 && RowsOk(s.queue, s.held, s.accepted)
    ensures TickMoved(s, i, Step(s, i), body)
  {
    var pc := s.procs[i].pc;
    if pc.TickCheck? { TickCheckStep(s, i, body); }
    else if pc.EnqInsert? || pc.PostInsert? { TickInsert(s, i, body); }
    else if Rewrites(pc) { TickRewrite(s, i, body); RewriteCarriesNothing(s, i); }
    else {
      assert Quiet(s, i, Step(s, i)) by {
        match FamilyOf(pc)
        case Sending => QuietSend(s, i);
        case Adding => QuietAdd(s, i);
        case Running => QuietRun(s, i);
        case Draining => QuietDrain(s, i);
        case Truncating => QuietCut(s, i);
        case _ => QuietOther(s, i);
      }
    }
  }

  lemma TickSpawn(s: State, i: nat, task: Pc, body: string)
    requires TickInv(s, body) && i < |s.procs| && task in {DrainMode, Turn}
    ensures TickInv(Spawn(s, i, task), body)
  {
    var t := Spawn(s, i, task);
    forall j | 0 <= j < |t.procs| ensures ProcTick(t, j, body) {
      if j < |s.procs| { assert ProcTick(s, j, body); }
    }
  }

  lemma TickGo(s: State, i: nat, body: string)
    requires StoreInv(s) && TickInv(s, body) && Enabled(s, Go(i))
    ensures TickInv(GoStep(s, i), body)
  {
    assert ProcTick(s, i, body);
    if FamilyOf(s.procs[i].pc) == Spawning {
      TickSpawn(s, i, if s.procs[i].pc.SpawnDrain? then DrainMode else Turn, body);
    } else {
      TickMove(s, i, body);
      TickApply(s, i, Step(s, i), body);
    }
  }

  lemma TickRows(s: State, t: State, body: string)
    requires TickInv(s, body) && t.procs == s.procs && t.ticker == s.ticker
        && Copies(t.queue, body) <= Copies(s.queue, body)
    ensures TickInv(t, body)
  {
    forall j | 0 <= j < |s.procs| ensures ProcTick(t, j, body) { assert ProcTick(s, j, body); }
  }

  lemma TickArrive(s: State, req: Request, body: string)
    requires TickInv(s, body) && Enabled(s, Arrive(req)) && OnlyTicked(body, Arrive(req))
    ensures TickInv(Next(s, Arrive(req)), body)
  {
    var t := Next(s, Arrive(req));
    forall j | 0 <= j < |t.procs| ensures ProcTick(t, j, body) {
      if j < |s.procs| { assert ProcTick(s, j, body); }
    }
  }

  lemma TickStep(s: State, ev: Event, body: string)
    requires StoreInv(s) && TickInv(s, body) && Enabled(s, ev) && OnlyTicked(body, ev)
    ensures TickInv(Next(s, ev), body)
  {
    match ev
    case Arrive(req) => TickArrive(s, req, body);
    case Go(i) => TickGo(s, i, body);
    case Cancel(id) => CopiesDeleted(s.queue, id, false, body); TickRows(s, CancelStep(s, id), body);
    case Edit(id, text) => CopiesEdited(s.queue, id, text, body); TickRows(s, Next(s, ev), body);
    case Reordering(ids) => CopiesSame(s.queue, Reorder(s.queue, ids), body); TickRows(s, Next(s, ev), body);
    case Crash => TickCrash(s, body);
  }

  lemma CopiesEdited(q: seq<Row>, id: nat, text: string, body: string)
    requires text != body
    ensures Copies(UpdateBody(q, id, text), body) <= Copies(q, body)
  {
    match Find(q, id)
    case Some(k) => CopiesUpdate(q, k, q[k].(body := text), body);
    case None =>
  }

  lemma TickCrash(s: State, body: string)
    requires TickInv(s, body)
    ensures TickInv(Reboot(s), body)
  {
    CopiesSame(s.queue, Recover(s.queue), body);
    forall j | 0 <= j < |s.procs| ensures ProcTick(Reboot(s), j, body) { }
  }

  lemma {:induction false} TickRun(s: State, evs: seq<Event>, body: string)
    requires Inv(s) && TickInv(s, body) && Valid(s, evs) && forall ev | ev in evs :: OnlyTicked(body, ev)
    ensures TickInv(Run(s, evs), body)
    decreases |evs|
  {
    if evs != [] {
      assert evs[0] in evs;
      TickStep(s, evs[0], body);
      InvStep(s, evs[0]);
      TickRun(Next(s, evs[0]), evs[1..], body);
    }
  }

  /** However many ticks fire, and across restarts, a body sent only by the ticker has at most
      two copies in the queue, pending and running together. */
  lemma ScheduledCopiesBounded(evs: seq<Event>, body: string)
    requires Valid(IDLE, evs) && forall ev | ev in evs :: OnlyTicked(body, ev)
    ensures Copies(Run(IDLE, evs).queue, body) <= 2
  {
    InvIdle();
    TickRun(IDLE, evs, body);
  }
}
